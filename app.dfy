/**
 * The top-level router: two pieces of state, the signed-in user and the signed-in
 * admin, set by the login callbacks and cleared by logout, and the conditional that
 * picks the page to show.
 */
module App {
  import opened Login

  datatype View = LoginView | AdminView(adminMobile: string) | DashboardView(user: LoginResult)

  /** `!currentUser && !admin ? <Login/> : admin ? <AdminDashboard/> : <Dashboard/>` */
  function SelectView(currentUser: LoginResult, admin: LoginResult): (v: View)
    ensures v == LoginView <==> !Truthy(currentUser) && !Truthy(admin)
    ensures Truthy(admin) ==> v == AdminView(admin.mobile)
    ensures Truthy(currentUser) && !Truthy(admin) ==> v == DashboardView(currentUser)
  {
    if !Truthy(currentUser) && !Truthy(admin) then LoginView
    else if Truthy(admin) then AdminView(admin.mobile)
    else DashboardView(currentUser)
  }

  class AppState {
    var currentUser: LoginResult
    var admin: LoginResult

    constructor ()
      ensures currentUser == Falsy && admin == Falsy
      ensures View() == LoginView
    {
      currentUser, admin := Falsy, Falsy;
    }

    function View(): View
      reads this
    {
      SelectView(currentUser, admin)
    }

    /** `handleLogin`: changes the user and nothing else. */
    method HandleLogin(user: LoginResult)
      modifies this`currentUser
      ensures currentUser == user && admin == old(admin)
    {
      currentUser := user;
    }

    /** `handleAdminLogin`: changes the admin and nothing else. */
    method HandleAdminLogin(adminObj: LoginResult)
      modifies this`admin
      ensures admin == adminObj && currentUser == old(currentUser)
    {
      admin := adminObj;
    }

    /** `handleLogout`: clears both, so the login page is shown next. */
    method HandleLogout()
      modifies this`currentUser, this`admin
      ensures currentUser == Falsy && admin == Falsy
      ensures View() == LoginView
    {
      currentUser, admin := Falsy, Falsy;
    }
  }

  /**
   * A submission of the login form as App wires it (`onLogin={handleLogin}`,
   * `onAdminLogin={handleAdminLogin}`), starting from the login page.
   */
  method SubmitLogin(app: AppState, form: LoginForm, reply: LoginReply)
    requires form.hasAdminHandler
    requires app.View() == LoginView
    modifies app, form`message
    ensures !(ValidateMobile(form.mobile) && ValidatePin(form.pin)) ==> app.View() == LoginView
    ensures ValidateMobile(form.mobile) && ValidatePin(form.pin) && reply.Returned? ==>
      app.View() == (if LooksLikeAdmin(reply.result) then AdminView(reply.result.mobile)
                     else if Truthy(reply.result) then DashboardView(reply.result)
                     else LoginView)
    ensures reply.Threw? ==> app.View() == LoginView
  {
    var called, dispatched := form.HandleSubmit(reply);
    if dispatched.Some? {
      match dispatched.value
      case ToAdmin(a) => app.HandleAdminLogin(a);
      case ToUser(u) => app.HandleLogin(u);
    }
  }
}
