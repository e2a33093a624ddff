/** The two navigation configurations the application ships, as values of the
    configuration model, and what the renderer makes of them. */
module NavSamples {
  import opened Fallback
  import opened HeaderNav

  // Shorthands for the shapes the configurations use.

  function Described(text: string, href: string, description: string): SectionItem {
    SectionItem(text, href, Some(description), None)
  }

  function Plain(text: string, href: string): SectionItem {
    SectionItem(text, href, None, None)
  }

  function WithIcon(text: string, href: string, icon: string): SectionItem {
    SectionItem(text, href, None, Some(icon))
  }

  function ItemsSection(sectionType: string, items: seq<SectionItem>): Section {
    Section(sectionType, None, None, None, Some(items), None)
  }

  function FeaturedOnly(f: FeaturedSection): Section {
    Section("featured", None, None, None, None, Some(f))
  }

  function Dropdown(text: string, content: DropdownContent): NavItem {
    NavItem("dropdown", text, None, Some(content), None)
  }

  /** A link whose style turns the transition off. */
  function StaticLink(text: string, href: string): NavItem {
    NavItem("link", text, Some(href), None, Some(ItemStyle(Some(false))))
  }

  const HomeItem := Dropdown("Home", DropdownContent("grid", "lg", Some(2), Some([
    FeaturedOnly(FeaturedSection("shadcn/ui", "Beautifully designed components built with Tailwind CSS.", "/", Some("muted"))),
    ItemsSection("description-list", [
      Described("Introduction", "/", "Re-usable components built using Radix UI and Tailwind CSS."),
      Described("Installation", "/", "How to install dependencies and structure your app."),
      Described("Typography", "/", "Styles for headings, paragraphs, lists...etc")])])))

  const ComponentsItem := Dropdown("Components", DropdownContent("grid", "xl", Some(2), Some([
    ItemsSection("description-list", [
      Described("Alert Dialog", "/", "A modal dialog that interrupts the user with important content and expects a response."),
      Described("Hover Card", "/", "For sighted users to preview content available behind a link."),
      Described("Progress", "/", "Displays an indicator showing the completion progress of a task, typically displayed as a progress bar."),
      Described("Scroll-area", "/", "Visually or semantically separates content."),
      Described("Tabs", "/", "A set of layered sections of content—known as tab panels—that are displayed one at a time."),
      Described("Tooltip", "/", "A popup that displays information related to an element when the element receives keyboard focus or the mouse hovers over it.")])])))

  const DocsItem := StaticLink("Docs", "/")

  const ListMenuItem := Dropdown("List", DropdownContent("list", "sm", None, Some([
    ItemsSection("description-list", [
      Described("Components", "#", "Browse all components in the library."),
      Described("Documentation", "#", "Learn how to use the library."),
      Described("Blog", "#", "Read our latest blog posts.")])])))

  const SimpleItem := Dropdown("Simple", DropdownContent("list", "sm", None, Some([
    ItemsSection("list", [Plain("Components", "#"), Plain("Documentation", "#"), Plain("Blocks", "#")])])))

  const WithIconMenuItem := Dropdown("With Icon", DropdownContent("list", "sm", None, Some([
    ItemsSection("icon-list", [
      WithIcon("Backlog", "#", "CircleHelp"),
      WithIcon("To Do", "#", "Circle"),
      WithIcon("Done", "#", "CircleCheck")])])))

  /** The configuration of the site header. */
  const HeaderNavSample := NavConfig([HomeItem, ComponentsItem, DocsItem, ListMenuItem, SimpleItem, WithIconMenuItem], Some(false))

  const PlatformItem := Dropdown("Platform", DropdownContent("featured", "xl", None, Some([
    FeaturedOnly(FeaturedSection("Analytics Dashboard",
      "Get comprehensive insights into your business performance with real-time data visualization and advanced reporting tools.",
      "/dashboard", None)),
    ItemsSection("description-list", [
      Described("Real-time Analytics", "/analytics", "Monitor your KPIs and metrics with live data updates and customizable dashboards."),
      Described("User Management", "/users", "Manage team members, roles, and permissions with enterprise-grade security."),
      Described("API Integration", "/integrations", "Connect with 200+ third-party services and tools your team already uses."),
      Described("Automation Hub", "/automation", "Streamline workflows with powerful automation tools and custom triggers.")])])))

  const ProductsItem := Dropdown("Products", DropdownContent("grid", "xl", Some(3), Some([
    ItemsSection("description-list", [
      Described("Business Intelligence", "/products/bi", "Advanced analytics and reporting platform for data-driven decisions."),
      Described("Customer Portal", "/products/portal", "Self-service portal for customers with ticket management and knowledge base."),
      Described("Marketing Suite", "/products/marketing", "Complete marketing automation with email campaigns and lead tracking.")]),
    ItemsSection("description-list", [
      Described("E-commerce Platform", "/products/ecommerce", "Full-featured online store with inventory management and payment processing."),
      Described("Project Management", "/products/projects", "Collaborative workspace for teams with task tracking and time management."),
      Described("CRM System", "/products/crm", "Customer relationship management with sales pipeline and contact management.")]),
    ItemsSection("description-list", [
      Described("Mobile App Builder", "/products/mobile", "No-code platform for creating native mobile applications."),
      Described("API Gateway", "/products/api", "Secure API management with rate limiting and authentication."),
      Described("Cloud Storage", "/products/storage", "Scalable file storage with CDN and backup solutions.")])])))

  const SolutionsItem := Dropdown("Solutions", DropdownContent("list", "md", None, Some([
    ItemsSection("description-list", [
      Described("Enterprise", "/solutions/enterprise", "Scalable solutions for large organizations with dedicated support."),
      Described("Startups", "/solutions/startups", "Affordable packages designed for growing businesses and startups."),
      Described("Education", "/solutions/education", "Special pricing and features for educational institutions."),
      Described("Healthcare", "/solutions/healthcare", "HIPAA-compliant tools for healthcare providers and organizations."),
      Described("Non-Profit", "/solutions/nonprofit", "Discounted rates and specialized features for non-profit organizations.")])])))

  const ResourcesItem := Dropdown("Resources", DropdownContent("list", "sm", None, Some([
    ItemsSection("list", [
      Plain("Documentation", "/docs"), Plain("Blog", "/blog"), Plain("Case Studies", "/case-studies"),
      Plain("Webinars", "/webinars"), Plain("Community", "/community"), Plain("Help Center", "/help")])])))

  const PricingItem := StaticLink("Pricing", "/pricing")

  const CompanyItem := Dropdown("Company", DropdownContent("grid", "xl", Some(4), Some([
    ItemsSection("description-list", [
      Described("About Us", "/about", "Learn about our mission, values, and the team behind our platform."),
      Described("Careers", "/careers", "Join our growing team and help shape the future of technology.")]),
    ItemsSection("description-list", [
      Described("Press Kit", "/press", "Media resources, logos, and brand guidelines for press coverage."),
      Described("Investors", "/investors", "Financial information and updates for our investors and stakeholders.")]),
    ItemsSection("description-list", [
      Described("Partners", "/partners", "Explore partnership opportunities and our ecosystem of integrations."),
      Described("Security", "/security", "Learn about our security practices and compliance certifications.")]),
    ItemsSection("description-list", [
      Described("Contact", "/contact", "Get in touch with our team for support, sales, or general inquiries."),
      Described("Legal", "/legal", "Terms of service, privacy policy, and other legal documentation.")])])))

  /** The configuration of the content pages' navigation. */
  const PageNavSample := NavConfig([PlatformItem, ProductsItem, SolutionsItem, ResourcesItem, PricingItem, CompanyItem], Some(true))

  /** Every item of the header configuration is drawable and typed. */
  lemma HeaderItemsTyped()
    ensures forall i :: 0 <= i < |HeaderNavSample.items| ==> ItemRenders(HeaderNavSample.items[i]) && TypedItem(HeaderNavSample.items[i])
  {
    assert TypedItem(HomeItem) && TypedItem(ComponentsItem) && TypedItem(DocsItem);
    assert TypedItem(ListMenuItem) && TypedItem(SimpleItem) && TypedItem(WithIconMenuItem);
  }

  lemma PageItemsTypedFirstHalf()
    ensures TypedItem(PlatformItem) && TypedItem(ProductsItem) && TypedItem(SolutionsItem)
  {
    assert TypedItem(PlatformItem);
    assert TypedItem(ProductsItem);
  }

  lemma PageItemsTypedSecondHalf()
    ensures TypedItem(ResourcesItem) && TypedItem(PricingItem) && TypedItem(CompanyItem)
  {
  }

  /** Every item of the page configuration is drawable and typed. */
  lemma PageItemsTyped()
    ensures forall i :: 0 <= i < |PageNavSample.items| ==> ItemRenders(PageNavSample.items[i]) && TypedItem(PageNavSample.items[i])
  {
    PageItemsTypedFirstHalf();
    PageItemsTypedSecondHalf();
  }

  /** The header configuration is well-formed and typed, so it renders, one
      top-level entry per item. */
  lemma HeaderSampleRenders()
    ensures WellFormed(HeaderNavSample) && Typed(HeaderNavSample)
    ensures RenderNav(HeaderNavSample).Ok? && |RenderNav(HeaderNavSample).value.entries| == 6
  {
    HeaderItemsTyped();
    RenderSucceedsIffWellFormed(HeaderNavSample);
  }

  /** The page configuration is well-formed and typed, so it renders, one
      top-level entry per item. */
  lemma PageSampleRenders()
    ensures WellFormed(PageNavSample) && Typed(PageNavSample)
    ensures RenderNav(PageNavSample).Ok? && |RenderNav(PageNavSample).value.entries| == 6
  {
    PageItemsTyped();
    RenderSucceedsIffWellFormed(PageNavSample);
  }

  /** The Platform dropdown is a featured panel, and since its featured section
      sets no gradient, its card is muted. */
  lemma PlatformCardIsMuted()
    ensures RenderDropdown(PlatformItem.content.value).container == FeaturedPanel
    ensures RenderDropdown(PlatformItem.content.value).sections[0][0].gradientClass == MutedGradient
  {
    var platform := PlatformItem.content.value;
    FeaturedSectionRendering(platform.sections.value[0]);
  }

  /** The Company grid lays its sections out in four columns. */
  lemma CompanyGridHasFourColumns()
    ensures RenderDropdown(CompanyItem.content.value).classes[2] == "md:grid-cols-4"
  {
    GridWithColumns(CompanyItem.content.value);
  }

  /** The Pricing link has its transition turned off. */
  lemma PricingLinkHasNoTransition()
    ensures RenderItem(PricingItem) == Ok(TopLink("Pricing", "/pricing", true))
  {
  }
}
