/** Page metadata: merging a page's own metadata with the site-wide defaults.

    The site configuration is a constant except for its URL, which comes from
    the `NEXT_PUBLIC_APP_URL` environment variable and is a parameter here. */
module Metadata {
  import opened Fallback

  // ---------------------------------------------------------------------------
  // Records shared by the site configuration and the result

  datatype Author = Author(name: string, url: Option<string>)

  datatype OgImage = OgImage(url: string, width: int, height: int, alt: string)

  datatype Icons = Icons(icon: string, shortcut: string, apple: string)

  datatype OpenGraph = OpenGraph(
    title: string,
    description: string,
    url: string,
    siteName: string,
    images: seq<OgImage>,
    locale: string,
    ogType: string)

  datatype Twitter = Twitter(card: string, title: string, description: string, images: seq<string>)

  datatype SiteConfig = SiteConfig(
    name: string,
    description: string,
    url: string,
    icons: Icons,
    openGraph: OpenGraph,
    twitter: Twitter,
    authors: seq<Author>,
    creator: string,
    publisher: string,
    baseKeywords: seq<string>,
    metadataBase: string)

  // ---------------------------------------------------------------------------
  // The site configuration

  const SiteName := "My App"
  const SiteDescription := "Description of your application"
  const LocalUrl := "http://localhost:3000"
  const BaseKeywords: seq<string> := ["Next.js", "TypeScript", "React", "SaaS"]
  const SiteAuthors: seq<Author> := [Author("John Doe", Some("https://john-doe.com"))]
  const SiteIcons := Icons("/favicon.ico", "/favicon-16x16.png", "/apple-touch-icon.png")
  const SiteOgImages: seq<OgImage> := [OgImage("/og.png", 1200, 630, "My App")]
  const SiteTwitterImages: seq<string> := ["/og.png"]

  /** `NEXT_PUBLIC_APP_URL || "http://localhost:3000"`; never empty. */
  function AppUrl(env: Option<string>): (r: string)
    ensures TruthyText(r)
    ensures env.Some? && TruthyText(env.value) ==> r == env.value
    ensures env.None? || env == Some("") ==> r == LocalUrl
  {
    OrText(env, LocalUrl)
  }

  /** The site configuration for a given application URL: that one URL is the
      site's, Open Graph's and the metadata base, and the site's name and
      description are repeated in its Open Graph and Twitter records. */
  function Site(appUrl: string): (r: SiteConfig)
    ensures r.url == appUrl && r.openGraph.url == appUrl && r.metadataBase == appUrl
    ensures r.openGraph.title == r.name && r.openGraph.siteName == r.name && r.twitter.title == r.name
    ensures r.openGraph.description == r.description && r.twitter.description == r.description
  {
    SiteConfig(
      name := SiteName,
      description := SiteDescription,
      url := appUrl,
      icons := SiteIcons,
      openGraph := OpenGraph(SiteName, SiteDescription, appUrl, SiteName, SiteOgImages, "en_US", "website"),
      twitter := Twitter("summary_large_image", SiteName, SiteDescription, SiteTwitterImages),
      authors := SiteAuthors,
      creator := "Your Name",
      publisher := "Your Name",
      baseKeywords := BaseKeywords,
      metadataBase := appUrl)
  }

  // ---------------------------------------------------------------------------
  // The page's own metadata; every optional field is an Option

  datatype OpenGraphInput = OpenGraphInput(
    title: Option<string>,
    description: Option<string>,
    url: Option<string>,
    images: Option<seq<OgImage>>,
    ogType: Option<string>)

  datatype TwitterInput = TwitterInput(
    card: Option<string>,
    title: Option<string>,
    description: Option<string>,
    images: Option<seq<string>>)

  datatype GoogleBotInput = GoogleBotInput(index: Option<bool>, follow: Option<bool>)

  datatype RobotsInput = RobotsInput(index: Option<bool>, follow: Option<bool>, googleBot: Option<GoogleBotInput>)

  datatype CustomMetadata = CustomMetadata(
    title: string,
    description: string,
    keywords: Option<seq<string>>,
    authors: Option<seq<Author>>,
    openGraph: Option<OpenGraphInput>,
    twitter: Option<TwitterInput>,
    robots: Option<RobotsInput>)

  // Optional chaining (`x?.f`) on a missing object reads every field as missing.
  const NoOpenGraph := OpenGraphInput(None, None, None, None, None)
  const NoTwitter := TwitterInput(None, None, None, None)
  const NoRobots := RobotsInput(None, None, None)
  const NoGoogleBot := GoogleBotInput(None, None)

  function OpenGraphOf(m: CustomMetadata): OpenGraphInput { Nullish(m.openGraph, NoOpenGraph) }
  function TwitterOf(m: CustomMetadata): TwitterInput { Nullish(m.twitter, NoTwitter) }
  function RobotsOf(m: CustomMetadata): RobotsInput { Nullish(m.robots, NoRobots) }
  function GoogleBotOf(m: CustomMetadata): GoogleBotInput { Nullish(RobotsOf(m).googleBot, NoGoogleBot) }

  // ---------------------------------------------------------------------------
  // The result

  datatype GoogleBot = GoogleBot(index: bool, follow: bool)

  datatype Robots = Robots(index: bool, follow: bool, googleBot: GoogleBot)

  datatype PageMetadata = PageMetadata(
    title: string,
    description: string,
    applicationName: string,
    metadataBase: string,
    keywords: seq<string>,
    authors: seq<Author>,
    creator: string,
    publisher: string,
    robots: Robots,
    openGraph: OpenGraph,
    twitter: Twitter,
    icons: Icons)

  /** The page title followed by the site name. */
  function FullTitle(m: CustomMetadata): string {
    m.title + " | " + SiteName
  }

  /** `createMetadata`: the page metadata merged with the site defaults. The
      Open Graph and Twitter records start from the site's own and override
      some fields, as the object spreads do. */
  function CreateMetadata(m: CustomMetadata, env: Option<string>): (r: PageMetadata)
    ensures r.title != "" && r.openGraph.title != "" && r.twitter.title != ""
    ensures r.openGraph.url != "" && r.metadataBase != ""
    ensures |r.keywords| >= |BaseKeywords| && |r.authors| >= |SiteAuthors|
    ensures r.keywords[..|BaseKeywords|] == BaseKeywords && r.authors[..|SiteAuthors|] == SiteAuthors
    ensures r.openGraph.siteName == r.applicationName
  {
    var site := Site(AppUrl(env));
    var fullTitle := FullTitle(m);
    var og := OpenGraphOf(m);
    var tw := TwitterOf(m);
    PageMetadata(
      title := fullTitle,
      description := m.description,
      applicationName := site.name,
      metadataBase := site.metadataBase,
      keywords := site.baseKeywords + OrList(m.keywords, []),
      authors := site.authors + OrList(m.authors, []),
      creator := site.creator,
      publisher := site.publisher,
      robots := Robots(
        index := Nullish(RobotsOf(m).index, true),
        follow := Nullish(RobotsOf(m).follow, true),
        googleBot := GoogleBot(
          index := Nullish(GoogleBotOf(m).index, true),
          follow := Nullish(GoogleBotOf(m).follow, true))),
      openGraph := site.openGraph.(
        title := OrText(og.title, fullTitle),
        description := OrText(og.description, m.description),
        url := OrText(og.url, site.url),
        images := OrList(og.images, site.openGraph.images),
        ogType := OrText(og.ogType, "website")),
      twitter := site.twitter.(
        title := OrText(tw.title, fullTitle),
        description := OrText(tw.description, m.description),
        images := OrList(tw.images, site.twitter.images),
        card := OrText(tw.card, "summary_large_image")),
      icons := site.icons)
  }

  // ---------------------------------------------------------------------------
  // Properties

  /** The title is the page title, then " | ", then the site name. */
  lemma TitleIsSuffixed(m: CustomMetadata, env: Option<string>)
    ensures var r := CreateMetadata(m, env);
      && r.title[..|m.title|] == m.title
      && r.title[|m.title|..] == " | My App"
  {
  }

  /** Keywords and authors are the site's list followed by the page's, in order;
      without page entries they are the site's list. */
  lemma KeywordsAndAuthorsConcatenate(m: CustomMetadata, env: Option<string>)
    ensures var r := CreateMetadata(m, env);
      && r.keywords[..|BaseKeywords|] == BaseKeywords
      && r.keywords[|BaseKeywords|..] == (if m.keywords.Some? then m.keywords.value else [])
      && (m.keywords.None? ==> r.keywords == BaseKeywords)
      && r.authors[..|SiteAuthors|] == SiteAuthors
      && r.authors[|SiteAuthors|..] == (if m.authors.Some? then m.authors.value else [])
      && (m.authors.None? ==> r.authors == SiteAuthors)
  {
  }

  /** Each robots flag is true unless the page gives an explicit false. */
  lemma RobotsDefaultToTrue(m: CustomMetadata, env: Option<string>)
    ensures var r := CreateMetadata(m, env);
      && (!r.robots.index <==> m.robots.Some? && m.robots.value.index == Some(false))
      && (!r.robots.follow <==> m.robots.Some? && m.robots.value.follow == Some(false))
      && (!r.robots.googleBot.index <==>
            m.robots.Some? && m.robots.value.googleBot.Some? && m.robots.value.googleBot.value.index == Some(false))
      && (!r.robots.googleBot.follow <==>
            m.robots.Some? && m.robots.value.googleBot.Some? && m.robots.value.googleBot.value.follow == Some(false))
  {
  }

  /** The Open Graph title and description fall back when missing or empty:
      to the full title and to the page description. The title is never empty. */
  lemma OpenGraphTextFallsBack(m: CustomMetadata, env: Option<string>)
    ensures var r := CreateMetadata(m, env);
      var og := OpenGraphOf(m);
      && (og.title.Some? && og.title.value != "" ==> r.openGraph.title == og.title.value)
      && (og.title.None? || og.title == Some("") ==> r.openGraph.title == FullTitle(m))
      && (og.description.Some? && og.description.value != "" ==> r.openGraph.description == og.description.value)
      && (og.description.None? || og.description == Some("") ==> r.openGraph.description == m.description)
      && (m.openGraph.None? ==> r.openGraph.title == FullTitle(m) && r.openGraph.description == m.description)
      && r.openGraph.title != ""
  {
  }

  /** A given non-empty Open Graph URL and type are kept; otherwise the URL
      falls back to the site URL and the type to "website". The site name
      and locale come from the site configuration. */
  lemma OpenGraphUrlAndType(m: CustomMetadata, env: Option<string>)
    ensures var r := CreateMetadata(m, env);
      && (OpenGraphOf(m).url.None? || OpenGraphOf(m).url == Some("") ==> r.openGraph.url == AppUrl(env))
      && (OpenGraphOf(m).url.Some? && OpenGraphOf(m).url.value != "" ==> r.openGraph.url == OpenGraphOf(m).url.value)
      && (OpenGraphOf(m).ogType.None? || OpenGraphOf(m).ogType == Some("") ==> r.openGraph.ogType == "website")
      && (OpenGraphOf(m).ogType.Some? && OpenGraphOf(m).ogType.value != "" ==> r.openGraph.ogType == OpenGraphOf(m).ogType.value)
      && r.openGraph.url != ""
      && r.openGraph.siteName == SiteName
      && r.openGraph.locale == "en_US"
  {
  }

  /** A supplied image list, even an empty one, replaces the site's; only a
      missing list takes the defaults. */
  lemma ImagesReplaceDefaults(m: CustomMetadata, env: Option<string>)
    ensures var r := CreateMetadata(m, env);
      && (OpenGraphOf(m).images.Some? ==> r.openGraph.images == OpenGraphOf(m).images.value)
      && (OpenGraphOf(m).images.None? ==> r.openGraph.images == SiteOgImages)
      && (TwitterOf(m).images.Some? ==> r.twitter.images == TwitterOf(m).images.value)
      && (TwitterOf(m).images.None? ==> r.twitter.images == SiteTwitterImages)
  {
  }

  /** A given non-empty Twitter card is kept and a missing or empty one becomes
      "summary_large_image". A given non-empty title and description are kept;
      otherwise they fall back to the full title and the page description,
      whatever Open Graph was given. These are Open Graph's fallbacks: the
      same page input for both gives the same result. */
  lemma TwitterFallsBackLikeOpenGraph(m: CustomMetadata, env: Option<string>)
    ensures var r := CreateMetadata(m, env);
      && (TwitterOf(m).card.None? || TwitterOf(m).card == Some("") ==> r.twitter.card == "summary_large_image")
      && (TwitterOf(m).card.Some? && TwitterOf(m).card.value != "" ==> r.twitter.card == TwitterOf(m).card.value)
      && (TwitterOf(m).title.Some? && TwitterOf(m).title.value != "" ==> r.twitter.title == TwitterOf(m).title.value)
      && (TwitterOf(m).title.None? || TwitterOf(m).title == Some("") ==> r.twitter.title == FullTitle(m))
      && (TwitterOf(m).description.Some? && TwitterOf(m).description.value != "" ==> r.twitter.description == TwitterOf(m).description.value)
      && (TwitterOf(m).description.None? || TwitterOf(m).description == Some("") ==> r.twitter.description == m.description)
      && (TwitterOf(m).title == OpenGraphOf(m).title ==> r.twitter.title == r.openGraph.title)
      && (TwitterOf(m).description == OpenGraphOf(m).description ==> r.twitter.description == r.openGraph.description)
      && r.twitter.title != ""
  {
  }

  /** The fields taken over without transformation. */
  lemma PassThroughFields(m: CustomMetadata, env: Option<string>)
    ensures var r := CreateMetadata(m, env);
      && r.description == m.description
      && r.applicationName == SiteName
      && r.creator == "Your Name"
      && r.publisher == "Your Name"
      && r.icons == SiteIcons
      && r.metadataBase == AppUrl(env)
  {
  }

  /** `??` and `||` side by side: an explicit `false` robots flag survives, an
      explicit empty Open Graph title does not. */
  lemma ExplicitFalseKeptEmptyTitleReplaced(title: string, description: string, env: Option<string>)
    ensures var m := CustomMetadata(title, description, None, None,
                                    Some(NoOpenGraph.(title := Some(""))), None,
                                    Some(NoRobots.(index := Some(false))));
      var r := CreateMetadata(m, env);
      && !r.robots.index
      && r.robots.follow
      && r.openGraph.title == title + " | My App"
  {
  }
}
