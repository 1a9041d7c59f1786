/** The landing route after sign-in: it sends each user to the dashboard for their role. */
module Dashboard {
  import opened Wrappers

  const Home := "/"
  const AdminRoute := "/admin"
  const DriverRoute := "/driver"

  /**
   * The route the effect pushes, or `None` while the session is still
   * loading. `user` is the signed-in user's id and `role` the role read for
   * them, if any.
   */
  function Redirect(loading: bool, user: Option<string>, role: Option<string>): (r: Option<string>)
    ensures r.None? <==> loading
    ensures !loading && user.None? ==> r == Some(Home)
    ensures !loading && user.Some? && role == Some("admin") ==> r == Some(AdminRoute)
    ensures !loading && user.Some? && role != Some("admin") ==> r == Some(DriverRoute)
  {
    if loading then None
    else if user.None? then Some(Home)
    else if role == Some("admin") then Some(AdminRoute)
    else Some(DriverRoute)
  }

  /**
   * Once loaded, exactly one of the three routes is chosen, and the admin
   * route only for a signed-in admin: a missing role is sent to the driver
   * pages.
   */
  lemma OneTarget(loading: bool, user: Option<string>, role: Option<string>)
    ensures !loading ==> Redirect(loading, user, role) in {Some(Home), Some(AdminRoute), Some(DriverRoute)}
    ensures Redirect(loading, user, role) == Some(AdminRoute) <==> !loading && user.Some? && role == Some("admin")
    ensures Redirect(loading, user, role) == Some(Home) <==> !loading && user.None?
  {
    assert Home != AdminRoute && Home != DriverRoute && AdminRoute != DriverRoute by {
      assert |Home| != |AdminRoute| && |Home| != |DriverRoute| && AdminRoute[1] != DriverRoute[1];
    }
  }
}
