/** The access gate of the service area (src/app/service/layout.tsx). */
module ServiceLayout {
  import opened Wrappers
  import opened Types

  /** What the layout renders: a loading indicator, the access-denied notice naming the role
    * required, or the protected pages. */
  datatype GateView = LoadingView | AccessDeniedView(requiredRole: UserRole) | ShowChildren

  /** The layout's decision from the auth state. */
  function Gate(loading: bool, user: Option<User>): (v: GateView)
    ensures v.AccessDeniedView? ==> v.requiredRole == Service
  {
    if loading then LoadingView
    else if user.None? || user.value.role != Service then AccessDeniedView(Service)
    else ShowChildren
  }

  /** While loading, the indicator is shown whoever the user is. */
  lemma GateWhileLoading(user: Option<User>)
    ensures Gate(true, user) == LoadingView
  {
  }

  /** Once loaded, the protected pages are shown exactly to a signed-in Service user; everyone else
    * is denied. */
  lemma GateOnceLoaded(user: Option<User>)
    ensures Gate(false, user) == ShowChildren <==> user.Some? && user.value.role == Service
    ensures Gate(false, user) != ShowChildren ==> Gate(false, user) == AccessDeniedView(Service)
  {
  }

  /** Of the mock users, only the Service user passes the gate. */
  lemma GateOnMockUsers()
    ensures forall i :: 0 <= i < |MOCK_USERS| ==>
      (Gate(false, Some(MOCK_USERS[i])) == ShowChildren <==> MOCK_USERS[i].id == "user-serv1")
  {
  }
}
