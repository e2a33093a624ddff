/** The error boundary: a component that remembers the error thrown below it,
    renders its children while there is none, and otherwise renders the
    caller's fallback or a generated error page with up to three actions.
    Also the hook that lets a function component hand an error to it.

    Whether the build is a development build is a parameter (`isDev`). */
module ErrorBoundaries {
  import opened Fallback

  /** A thrown `Error`: its name, message and stack trace. */
  datatype JsError = JsError(name: string, message: string, stack: Option<string>)

  /** A React node, as far as its truthiness is concerned. */
  datatype Node = NullNode | BoolNode(b: bool) | NumberNode(n: int) | TextNode(s: string) | ElementNode(tag: string)

  /** JavaScript truthiness of a node: `null`, `false`, `0` and `""` are falsy. */
  predicate Truthy(n: Node) {
    match n
    case NullNode => false
    case BoolNode(b) => b
    case NumberNode(x) => x != 0
    case TextNode(s) => s != ""
    case ElementNode(_) => true
  }

  datatype Props = Props(
    children: Node,
    fallback: Option<Node>,
    showRetry: Option<bool>,
    showHome: Option<bool>,
    showSupport: Option<bool>,
    context: Option<string>)

  datatype BoundaryState = BoundaryState(hasError: bool, error: Option<JsError>)

  /** The state of a freshly constructed boundary, and the one a retry returns to. */
  const Initial := BoundaryState(false, None)

  /** `getDerivedStateFromError`: the state after `e` was thrown below the boundary. */
  function DerivedStateFromError(e: JsError): (r: BoundaryState)
    ensures r != Initial && r.hasError
    ensures r.error == Some(e)
  {
    BoundaryState(true, Some(e))
  }

  // ---------------------------------------------------------------------------
  // The generated error page

  /** What an action does when chosen: retry the boundary, or follow a link. */
  datatype ActionTarget = RetryClick | Href(url: string)

  datatype Action = Action(text: string, target: ActionTarget, icon: string, variant: Option<string>)

  const TryAgain := Action("Try again", RetryClick, "RefreshCw", None)
  const GoHome := Action("Go home", Href("/"), "Home", Some("outline"))
  const ContactSupport := Action("Contact support", Href("/support"), "Mail", None)

  /** The position of an action in the fixed order Try again, Go home, Contact support. */
  function Rank(a: Action): nat {
    if a == TryAgain then 0 else if a == GoHome then 1 else 2
  }

  /** An action is shown unless its flag is explicitly `false`. */
  predicate Shown(flag: Option<bool>) {
    flag != Some(false)
  }

  /** The actions the page offers, in their fixed order, each one present
      exactly when its flag is not explicitly false. */
  function PageActions(p: Props): (r: seq<Action>)
    ensures TryAgain in r <==> Shown(p.showRetry)
    ensures GoHome in r <==> Shown(p.showHome)
    ensures ContactSupport in r <==> Shown(p.showSupport)
    ensures forall a :: a in r ==> a in [TryAgain, GoHome, ContactSupport]
    ensures forall i, j :: 0 <= i < j < |r| ==> Rank(r[i]) < Rank(r[j])
  {
    (if Shown(p.showRetry) then [TryAgain] else [])
    + (if Shown(p.showHome) then [GoHome] else [])
    + (if Shown(p.showSupport) then [ContactSupport] else [])
  }

  const GenericTitle := "Something went wrong"
  const GenericMessage := "We're sorry, but something unexpected happened. Please try refreshing or go back."

  /** The page title: the error's name (or "Component Error") in development
      when an error is stored, a generic title otherwise; never empty. */
  function Title(error: Option<JsError>, isDev: bool): (r: string)
    ensures TruthyText(r)
    ensures isDev && error.Some? ==> |r| > |"Error: "|
  {
    if isDev && error.Some? then "Error: " + OrText(Some(error.value.name), "Component Error")
    else GenericTitle
  }

  /** The page message, chosen by the same rule as the title; never empty. */
  function Message(error: Option<JsError>, isDev: bool): (r: string)
    ensures TruthyText(r)
    ensures isDev && error.Some? && error.value.message != "" ==> r == error.value.message
  {
    if isDev && error.Some? then OrText(Some(error.value.message), "An unexpected error occurred in this component")
    else GenericMessage
  }

  /** The stack trace shown below the page, in development only. */
  function Details(error: Option<JsError>, isDev: bool): (r: Option<string>)
    ensures r.Some? <==> isDev && error.Some?
    ensures r.Some? && error.value.stack.Some? ==> r.value == error.value.stack.value
  {
    if isDev && error.Some? then Some(Nullish(error.value.stack, "")) else None
  }

  /** What a boundary renders. */
  datatype View =
    | ShowChildren(node: Node)
    | ShowFallback(node: Node)
    | ShowErrorPage(title: string, message: string, actions: seq<Action>, details: Option<string>)

  /** The render decision: children without an error; with one, a truthy
      fallback, or else the generated page. */
  function ExpectedView(s: BoundaryState, p: Props, isDev: bool): (v: View)
    ensures v.ShowChildren? <==> !s.hasError
    ensures v.ShowChildren? ==> v.node == p.children
    ensures v.ShowFallback? ==> p.fallback == Some(v.node) && Truthy(v.node)
    ensures v.ShowErrorPage? ==> v.actions == PageActions(p) && v.title == Title(s.error, isDev) && v.message == Message(s.error, isDev)
    ensures v.ShowErrorPage? ==> v.details == Details(s.error, isDev)
  {
    if !s.hasError then ShowChildren(p.children)
    else if p.fallback.Some? && Truthy(p.fallback.value) then ShowFallback(p.fallback.value)
    else ShowErrorPage(Title(s.error, isDev), Message(s.error, isDev), PageActions(p), Details(s.error, isDev))
  }

  // ---------------------------------------------------------------------------
  // The component

  class ErrorBoundary {
    const props: Props
    var hasError: bool
    var error: Option<JsError>

    function State(): BoundaryState
      reads this
    {
      BoundaryState(hasError, error)
    }

    /** A fresh boundary holds no error. */
    constructor (props: Props)
      ensures this.props == props
      ensures State() == Initial
    {
      this.props := props;
      hasError := false;
      error := None;
    }

    /** React applies `getDerivedStateFromError` to an error thrown below. */
    method CatchError(e: JsError)
      modifies this
      ensures State() == DerivedStateFromError(e)
    {
      var next := DerivedStateFromError(e);
      hasError, error := next.hasError, next.error;
    }

    /** `handleRetry`: back to no error. */
    method HandleRetry()
      modifies this
      ensures State() == Initial
    {
      hasError, error := false, None;
    }

    /** The action list of the generated page, built by successive pushes. */
    method BuildActions() returns (actions: seq<Action>)
      ensures actions == PageActions(props)
    {
      actions := [];
      if props.showRetry != Some(false) {
        actions := actions + [TryAgain];
      }
      if props.showHome != Some(false) {
        actions := actions + [GoHome];
      }
      if props.showSupport != Some(false) {
        actions := actions + [ContactSupport];
      }
    }

    /** `render`: children, the fallback, or the generated page. */
    method Render(isDev: bool) returns (v: View)
      ensures v == ExpectedView(State(), props, isDev)
    {
      if !hasError {
        return ShowChildren(props.children);
      }
      if props.fallback.Some? && Truthy(props.fallback.value) {
        return ShowFallback(props.fallback.value);
      }
      var actions := BuildActions();
      v := ShowErrorPage(Title(error, isDev), Message(error, isDev), actions, Details(error, isDev));
    }
  }

  /** `useErrorHandler`: the stored error, set by `handleError` and cleared by
      `resetError`; an effect throws a stored error to the enclosing boundary. */
  class ErrorHandler {
    var error: Option<JsError>

    constructor ()
      ensures error == None
    {
      error := None;
    }

    method HandleError(e: JsError)
      modifies this
      ensures error == Some(e)
    {
      error := Some(e);
    }

    method ResetError()
      modifies this
      ensures error == None
    {
      error := None;
    }

    /** The effect: a stored error is thrown, and the enclosing boundary catches it. */
    method RunEffect(boundary: ErrorBoundary)
      modifies boundary
      ensures error.Some? ==> boundary.State() == DerivedStateFromError(error.value)
      ensures error.None? ==> boundary.State() == old(boundary.State())
    {
      if error.Some? {
        boundary.CatchError(error.value);
      }
    }
  }

  /** A full cycle: an error is caught and the generated page is shown (with
      Try again unless it is switched off); after a retry the children are back. */
  method CatchAndRetry(props: Props, e: JsError, isDev: bool) returns (caught: View, retried: View)
    requires props.fallback.None?
    ensures caught.ShowErrorPage?
    ensures caught.title == Title(Some(e), isDev)
    ensures TryAgain in caught.actions <==> Shown(props.showRetry)
    ensures retried == ShowChildren(props.children)
  {
    var boundary := new ErrorBoundary(props);
    boundary.CatchError(e);
    caught := boundary.Render(isDev);
    boundary.HandleRetry();
    retried := boundary.Render(isDev);
  }

  // ---------------------------------------------------------------------------
  // Properties

  /** Without an error the boundary renders its children unchanged. */
  lemma NoErrorRendersChildren(s: BoundaryState, p: Props, isDev: bool)
    requires !s.hasError
    ensures ExpectedView(s, p, isDev) == ShowChildren(p.children)
  {
  }

  /** With an error, a truthy fallback wins over the generated page; a missing
      or falsy one leaves the generated page. */
  lemma FallbackWins(s: BoundaryState, p: Props, isDev: bool)
    requires s.hasError
    ensures p.fallback.Some? && Truthy(p.fallback.value) ==> ExpectedView(s, p, isDev) == ShowFallback(p.fallback.value)
    ensures p.fallback.None? || !Truthy(p.fallback.value) ==> ExpectedView(s, p, isDev).ShowErrorPage?
  {
  }

  /** With no flags set all three actions appear, in order. */
  lemma AllActionsByDefault(p: Props)
    requires p.showRetry.None? && p.showHome.None? && p.showSupport.None?
    ensures PageActions(p) == [TryAgain, GoHome, ContactSupport]
  {
  }

  /** The title names the error exactly in development with an error present. */
  lemma TitleRule(error: Option<JsError>, isDev: bool)
    ensures var t := Title(error, isDev);
      && |t| >= 7
      && (t[..7] == "Error: " <==> isDev && error.Some?)
      && (!(isDev && error.Some?) ==> t == GenericTitle)
      && (isDev && error.Some? && error.value.name != "" ==> t == "Error: " + error.value.name)
      && (isDev && error.Some? && error.value.name == "" ==> t == "Error: Component Error")
  {
    if !(isDev && error.Some?) {
      assert GenericTitle[..7] == "Somethi";
    }
  }

  /** The message follows the title's rule. */
  lemma MessageRule(error: Option<JsError>, isDev: bool)
    ensures var m := Message(error, isDev);
      && (!(isDev && error.Some?) ==> m == GenericMessage)
      && (isDev && error.Some? && error.value.message != "" ==> m == error.value.message)
      && (isDev && error.Some? && error.value.message == "" ==> m == "An unexpected error occurred in this component")
  {
  }

  /** Catching leaves the children; retrying brings them back. */
  lemma CatchThenRetry(e: JsError, p: Props, isDev: bool)
    ensures !ExpectedView(DerivedStateFromError(e), p, isDev).ShowChildren?
    ensures ExpectedView(Initial, p, isDev) == ShowChildren(p.children)
  {
  }
}
