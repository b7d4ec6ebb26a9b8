/** The error boundary: a React class component that keeps whether a child
    threw, what it threw, where, and whether the details are expanded; it
    renders its children, a custom fallback or a default error card. React
    nodes are opaque, and whether the build runs in development mode is an
    input of `render`. */
module ErrorBoundaryComponent {
  import opened JsValues

  /** A thrown `Error`: only its message is ever displayed. */
  datatype ErrorValue = ErrorValue(message: string)

  /** React's `ErrorInfo`: the component stack, which may be absent. */
  datatype ErrorInfo = ErrorInfo(componentStack: Option<string>)

  /** A React node, by identity. */
  datatype Node = Node(id: nat)

  /** The props: `fallback` is `None` when absent or falsy, `hasOnError` says
      whether an `onError` callback was passed. */
  datatype Props = Props(children: Node, fallback: Option<Node>, hasOnError: bool, showDetails: bool)

  datatype BoundaryState = BoundaryState(
    hasError: bool,
    error: Option<ErrorValue>,
    errorInfo: Option<ErrorInfo>,
    showErrorDetails: bool)

  const InitialState: BoundaryState := BoundaryState(false, None, None, false)

  /** The expanded part of the details section. */
  datatype DetailsBody = DetailsBody(message: string, componentStack: Option<string>)

  /** The collapsible details section: its toggle and, when expanded, its body. */
  datatype DetailsView = DetailsView(expanded: bool, body: Option<DetailsBody>)

  /** What `render()` returns. */
  datatype Rendered =
    | Children(node: Node)
    | Fallback(node: Node)
    | DefaultErrorCard(details: Option<DetailsView>)

  /** The state after React applies `getDerivedStateFromError(e)`: only
      `hasError` and `error` change. */
  function DerivedFromError(s: BoundaryState, e: ErrorValue): (r: BoundaryState)
    ensures r.hasError && r.error == Some(e)
    ensures r.errorInfo == s.errorInfo && r.showErrorDetails == s.showErrorDetails
  {
    s.(hasError := true, error := Some(e))
  }

  /** The state after `componentDidCatch` records the error info. */
  function AfterCatch(s: BoundaryState, info: ErrorInfo): (r: BoundaryState)
    ensures r.errorInfo == Some(info)
    ensures r.hasError == s.hasError && r.error == s.error && r.showErrorDetails == s.showErrorDetails
  {
    s.(errorInfo := Some(info))
  }

  /** `handleRetry`: back to the initial state, whatever the current one. */
  function Retry(s: BoundaryState): (r: BoundaryState)
    ensures !r.hasError && r.error.None? && r.errorInfo.None? && !r.showErrorDetails
  {
    InitialState
  }

  /** `toggleErrorDetails`: flips the details flag and nothing else. */
  function ToggleDetails(s: BoundaryState): (r: BoundaryState)
    ensures r.showErrorDetails != s.showErrorDetails
    ensures r.hasError == s.hasError && r.error == s.error && r.errorInfo == s.errorInfo
  {
    s.(showErrorDetails := !s.showErrorDetails)
  }

  /** The details section: shown when details are enabled (by the prop or
      by development mode) and an error is recorded; its body shows the
      message, and the component stack when it is non-empty. */
  function Details(s: BoundaryState, props: Props, development: bool): (r: Option<DetailsView>)
    ensures r.Some? <==> (props.showDetails || development) && s.error.Some?
    ensures r.Some? ==> r.value.expanded == s.showErrorDetails
    ensures r.Some? ==> (r.value.body.Some? <==> s.showErrorDetails)
    ensures r.Some? && r.value.body.Some? ==>
              && r.value.body.value.message == s.error.value.message
              && (r.value.body.value.componentStack.Some? <==> s.errorInfo.Some? && Truthy(s.errorInfo.value.componentStack))
  {
    if (props.showDetails || development) && s.error.Some? then
      var stack := if s.errorInfo.Some? && Truthy(s.errorInfo.value.componentStack) then s.errorInfo.value.componentStack else None;
      Some(DetailsView(s.showErrorDetails,
                       if s.showErrorDetails then Some(DetailsBody(s.error.value.message, stack)) else None))
    else None
  }

  /** `render()`: the children while nothing was caught, else the custom
      fallback when one is given, else the default error card. */
  function Render(s: BoundaryState, props: Props, development: bool): (r: Rendered)
    ensures r.Children? <==> !s.hasError
    ensures r.Children? ==> r.node == props.children
    ensures r.Fallback? <==> s.hasError && props.fallback.Some?
    ensures r.Fallback? ==> r.node == props.fallback.value
    ensures r.DefaultErrorCard? <==> s.hasError && props.fallback.None?
    ensures r.DefaultErrorCard? ==> r.details == Details(s, props, development)
  {
    if !s.hasError then Children(props.children)
    else if props.fallback.Some? then Fallback(props.fallback.value)
    else DefaultErrorCard(Details(s, props, development))
  }

  /** After a retry the boundary renders its children again, from any state. */
  lemma RetryRendersChildren(s: BoundaryState, props: Props, development: bool)
    ensures Retry(s) == InitialState
    ensures Render(Retry(s), props, development) == Children(props.children)
  {
  }

  /** Two toggles are the identity. */
  lemma ToggleTwice(s: BoundaryState)
    ensures ToggleDetails(ToggleDetails(s)) == s
  {
  }

  /** A child throwing from a clean boundary: React applies
      `getDerivedStateFromError`, then `componentDidCatch` records the info.
      The fallback, if given, replaces the children; otherwise the default
      card shows collapsed details exactly when details are enabled. */
  lemma CaughtErrorRendering(props: Props, development: bool, e: ErrorValue, info: ErrorInfo)
    ensures var s := AfterCatch(DerivedFromError(InitialState, e), info);
            && s == BoundaryState(true, Some(e), Some(info), false)
            && (props.fallback.Some? ==> Render(s, props, development) == Fallback(props.fallback.value))
            && (props.fallback.None? ==>
                  Render(s, props, development)
                  == DefaultErrorCard(if props.showDetails || development then Some(DetailsView(false, None)) else None))
  {
  }

  /** Expanding the details of a caught error shows its message, and the
      component stack exactly when React reported a non-empty one. */
  lemma ExpandedDetailsShowError(props: Props, development: bool, e: ErrorValue, info: ErrorInfo)
    requires props.fallback.None? && (props.showDetails || development)
    ensures var s := ToggleDetails(AfterCatch(DerivedFromError(InitialState, e), info));
            Render(s, props, development)
            == DefaultErrorCard(Some(DetailsView(true, Some(DetailsBody(e.message,
                 if Truthy(info.componentStack) then info.componentStack else None)))))
  {
  }

  class ErrorBoundary {
    const props: Props
    var hasError: bool
    var error: Option<ErrorValue>
    var errorInfo: Option<ErrorInfo>
    var showErrorDetails: bool

    function State(): BoundaryState
      reads this
    {
      BoundaryState(hasError, error, errorInfo, showErrorDetails)
    }

    constructor (props: Props)
      ensures this.props == props && State() == InitialState
    {
      this.props := props;
      hasError, error, errorInfo, showErrorDetails := false, None, None, false;
    }

    /** React merging the partial state `getDerivedStateFromError(e)` returns. */
    method ApplyDerivedStateFromError(e: ErrorValue)
      modifies this
      ensures State() == DerivedFromError(old(State()), e)
    {
      hasError := true;
      error := Some(e);
    }

    /** `componentDidCatch`: records the info and returns the arguments the
        `onError` callback is called with, if one was passed. */
    method ComponentDidCatch(e: ErrorValue, info: ErrorInfo) returns (reported: Option<(ErrorValue, ErrorInfo)>)
      modifies this
      ensures State() == AfterCatch(old(State()), info)
      ensures reported.Some? <==> props.hasOnError
      ensures reported.Some? ==> reported.value == (e, info)
    {
      errorInfo := Some(info);
      reported := if props.hasOnError then Some((e, info)) else None;
    }

    method HandleRetry()
      modifies this
      ensures State() == Retry(old(State()))
    {
      hasError, error, errorInfo, showErrorDetails := false, None, None, false;
    }

    method ToggleErrorDetails()
      modifies this
      ensures State() == ToggleDetails(old(State()))
    {
      showErrorDetails := !showErrorDetails;
    }

    function RenderNow(development: bool): (r: Rendered)
      reads this
      ensures r.Children? <==> !hasError
    {
      Render(State(), props, development)
    }
  }
}
