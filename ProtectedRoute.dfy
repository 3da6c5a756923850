/**
  The route guard (`ProtectedRoute`): from the session's `isLoading` and
  `isAuthenticated` flags it decides what to render and whether its effect
  navigates to the landing route.
 */
module Guard {
  import opened Wrappers
  import Auth

  /** What the guard renders: the loading spinner, nothing (`null`), or its children. */
  datatype View = Spinner | Nothing | Children

  /** One render of the guard: the view, and the route its effect navigates to, if any. */
  datatype Decision = Decision(view: View, redirect: Option<string>)

  const LandingRoute := "/"

  /** The render and its effect for one pair of flags. */
  function Decide(isLoading: bool, isAuthenticated: bool): (d: Decision)
    ensures d.view == Spinner <==> isLoading
    ensures d.view == Children <==> !isLoading && isAuthenticated
    ensures d.view == Nothing <==> !isLoading && !isAuthenticated
    ensures d.redirect.Some? <==> d.view == Nothing
    ensures d.redirect.Some? ==> d.redirect.value == LandingRoute
  {
    var redirect := if !isLoading && !isAuthenticated then Some(LandingRoute) else None;
    if isLoading then Decision(Spinner, redirect)
    else if !isAuthenticated then Decision(Nothing, redirect)
    else Decision(Children, redirect)
  }

  /**
    The guard in front of the session store: while the stored session is
    still being checked it neither redirects nor shows the page, and once it
    has been checked it shows the page exactly when somebody is signed in.
   */
  lemma GuardOverSession(storage: map<string, string>, json: Auth.Serializer)
    ensures var m := Auth.Mounted(storage);
      Decide(m.isLoading, Auth.IsAuthenticated(m)) == Decision(Spinner, None)
    ensures var r := Auth.Restored(Auth.Mounted(storage), json);
      Decide(r.isLoading, Auth.IsAuthenticated(r)).view == (if r.user.Some? then Children else Nothing)
  {
  }
}
