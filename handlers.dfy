/** The component's handlers as transitions of the whole state: each one
    takes the state before the handler runs and the replies the server
    gives, and yields the state after it has run to completion, the
    requests it issued and the alerts it raised. The class in module
    Component runs the same handlers step by step and is proved to agree
    with these functions. */
module Handlers {
  import opened Types

  /** The state the component starts with, before the mount effect runs;
      `persisted` is whatever the device storage holds under `'token'`. */
  function Initial(persisted: Option<string>): State {
    State(false, None, LoginTab, InfoTab, EmptyLogin, EmptyAccount, UserInfo("", ""), EmptyAccount, persisted)
  }

  /** The update form as a successful profile fetch seeds it. */
  function Seeded(u: UserInfo): AccountForm {
    AccountForm(u.name, u.email, "", "")
  }

  /** The handlers never touch the tabs, nor the login and register forms. */
  predicate ScreenKept(a: State, b: State) {
    a.activeTab == b.activeTab && a.profileTab == b.profileTab &&
    a.loginForm == b.loginForm && a.registerForm == b.registerForm
  }

  /** The login form has an empty field. */
  predicate LoginIncomplete(f: LoginForm) {
    f.email == "" || f.password == ""
  }

  /** The register form has an empty field. */
  predicate RegisterIncomplete(f: AccountForm) {
    f.name == "" || f.email == "" || f.password == "" || f.passwordConfirmation == ""
  }

  /** The update form asks for a new password and does not confirm it. */
  predicate UpdateMismatch(f: AccountForm) {
    f.password != "" && f.password != f.passwordConfirmation
  }

  /** `fetchUserInfo(authToken)`: GET /user with the given bearer. */
  function FetchUserInfo(s: State, bearer: string, reply: Response<UserInfo>): (r: Step)
    ensures r.requests == [GetUser(bearer)]
    ensures ScreenKept(s, r.state)
    ensures reply.Ok? ==>
      r.state.userInfo == reply.payload && r.state.updateForm == Seeded(reply.payload) &&
      r.state.isLoggedIn && r.state.token == s.token && r.state.storedToken == s.storedToken &&
      r.alerts == []
    ensures reply.NotOk? ==>
      r.state.token == None && r.state.storedToken == None && r.state.isLoggedIn == s.isLoggedIn &&
      r.state.userInfo == s.userInfo && r.state.updateForm == s.updateForm &&
      r.alerts == []
    ensures reply.Exception? ==> r.state == s && r.alerts == [ProfileUnavailable]
  {
    match reply
    case Ok(u) =>
      Step(s.(userInfo := u, updateForm := Seeded(u), isLoggedIn := true), [GetUser(bearer)], [])
    case NotOk(_) =>
      Step(s.(storedToken := None, token := None), [GetUser(bearer)], [])
    case Exception =>
      Step(s, [GetUser(bearer)], [ProfileUnavailable])
  }

  /** `checkToken()`: the mount effect that restores a persisted session. */
  function CheckToken(s: State, reply: Response<UserInfo>): (r: Step)
    ensures !Truthy(s.storedToken) ==> r == Step(s, [], [])
    ensures Truthy(s.storedToken) ==> r.requests == [GetUser(s.storedToken.value)] && ScreenKept(s, r.state)
    ensures Truthy(s.storedToken) && reply.Ok? ==>
      r.state.isLoggedIn && r.state.token == s.storedToken && r.state.storedToken == s.storedToken &&
      r.state.userInfo == reply.payload && r.state.updateForm == Seeded(reply.payload) && r.alerts == []
    ensures Truthy(s.storedToken) && reply.NotOk? ==>
      r.state == s.(token := None, storedToken := None) && r.alerts == []
    ensures Truthy(s.storedToken) && reply.Exception? ==>
      r.state == s.(token := s.storedToken) && r.alerts == [ProfileUnavailable]
  {
    if Truthy(s.storedToken) then
      FetchUserInfo(s.(token := s.storedToken), s.storedToken.value, reply)
    else
      Step(s, [], [])
  }

  /** `handleLogin()`: POST /login with the login form, then, on a 2xx reply,
      keep the returned token and fetch the profile with it. */
  function Login(s: State, reply: Response<string>, profile: Response<UserInfo>): (r: Step)
    ensures r.requests == [] <==> LoginIncomplete(s.loginForm)
    ensures LoginIncomplete(s.loginForm) ==> r.state == s && r.alerts == [MissingFields]
    ensures !LoginIncomplete(s.loginForm) && reply.Ok? ==>
      r.requests == [PostLogin(s.loginForm), GetUser(reply.payload)] &&
      r.state == FetchUserInfo(s.(token := Some(reply.payload), storedToken := Some(reply.payload)), reply.payload, profile).state &&
      r.alerts == FetchUserInfo(s.(token := Some(reply.payload), storedToken := Some(reply.payload)), reply.payload, profile).alerts + [LoginSucceeded]
    ensures !LoginIncomplete(s.loginForm) && !reply.Ok? ==>
      r.state == s && r.requests == [PostLogin(s.loginForm)]
    ensures !LoginIncomplete(s.loginForm) && reply.NotOk? ==>
      r.alerts == [ServerError(MessageOr(reply.message, LoginFailed))]
    ensures !LoginIncomplete(s.loginForm) && reply.Exception? ==> r.alerts == [ConnectionError]
  {
    if s.loginForm.email == "" || s.loginForm.password == "" then
      Step(s, [], [MissingFields])
    else
      match reply
      case Ok(t) =>
        var fetched := FetchUserInfo(s.(token := Some(t), storedToken := Some(t)), t, profile);
        Step(fetched.state, [PostLogin(s.loginForm)] + fetched.requests, fetched.alerts + [LoginSucceeded])
      case NotOk(m) =>
        Step(s, [PostLogin(s.loginForm)], [ServerError(MessageOr(m, LoginFailed))])
      case Exception =>
        Step(s, [PostLogin(s.loginForm)], [ConnectionError])
  }

  /** `handleRegister()`: POST /register with the register form. */
  function Register(s: State, reply: Response<()>): (r: Step)
    ensures r.requests != [] <==>
      !RegisterIncomplete(s.registerForm) && s.registerForm.password == s.registerForm.passwordConfirmation
    ensures RegisterIncomplete(s.registerForm) ==> r.state == s && r.alerts == [MissingFields]
    ensures !RegisterIncomplete(s.registerForm) && s.registerForm.password != s.registerForm.passwordConfirmation ==>
      r.state == s && r.alerts == [PasswordsMismatch]
    ensures r.requests != [] ==> r.requests == [PostRegister(s.registerForm)]
    ensures r.requests != [] && reply.Ok? ==>
      r.state == s.(registerForm := EmptyAccount, activeTab := LoginTab) && r.alerts == [RegisterSucceeded]
    ensures r.requests != [] && reply.NotOk? ==>
      r.state == s && r.alerts == [ServerError(MessageOr(reply.message, RegistrationFailed))]
    ensures r.requests != [] && reply.Exception? ==> r.state == s && r.alerts == [ConnectionError]
  {
    var f := s.registerForm;
    if f.name == "" || f.email == "" || f.password == "" || f.passwordConfirmation == "" then
      Step(s, [], [MissingFields])
    else if f.password != f.passwordConfirmation then
      Step(s, [], [PasswordsMismatch])
    else
      match reply
      case Ok(_) =>
        Step(s.(activeTab := LoginTab, registerForm := EmptyAccount), [PostRegister(f)], [RegisterSucceeded])
      case NotOk(m) =>
        Step(s, [PostRegister(f)], [ServerError(MessageOr(m, RegistrationFailed))])
      case Exception =>
        Step(s, [PostRegister(f)], [ConnectionError])
  }

  /** `handleUpdate()`: PUT /user/update with the update form and the
      in-memory token as bearer. */
  function Update(s: State, reply: Response<UserInfo>): (r: Step)
    ensures r.requests == [] <==> UpdateMismatch(s.updateForm)
    ensures UpdateMismatch(s.updateForm) ==> r.state == s && r.alerts == [PasswordsMismatch]
    ensures !UpdateMismatch(s.updateForm) ==> r.requests == [PutUpdate(s.token, s.updateForm)]
    ensures !UpdateMismatch(s.updateForm) && reply.Ok? ==>
      r.state == s.(userInfo := reply.payload) && r.alerts == [UpdateSucceeded]
    ensures !UpdateMismatch(s.updateForm) && reply.NotOk? ==>
      r.state == s && r.alerts == [ServerError(MessageOr(reply.message, UpdateFailed))]
    ensures !UpdateMismatch(s.updateForm) && reply.Exception? ==>
      r.state == s && r.alerts == [ConnectionError]
  {
    var f := s.updateForm;
    if f.password != "" && f.password != f.passwordConfirmation then
      Step(s, [], [PasswordsMismatch])
    else
      match reply
      case Ok(u) => Step(s.(userInfo := u), [PutUpdate(s.token, f)], [UpdateSucceeded])
      case NotOk(m) => Step(s, [PutUpdate(s.token, f)], [ServerError(MessageOr(m, UpdateFailed))])
      case Exception => Step(s, [PutUpdate(s.token, f)], [ConnectionError])
  }

  /** `handleLogout()`: a best-effort POST /logout whose reply is never
      looked at, then an unconditional local logout. */
  function Logout(s: State, reply: Response<()>): (r: Step)
    ensures !r.state.isLoggedIn && r.state.token == None && r.state.storedToken == None
    ensures r.state.(isLoggedIn := s.isLoggedIn, token := s.token, storedToken := s.storedToken) == s
    ensures r.requests == [PostLogout(s.token)] && r.alerts == [LogoutSucceeded]
  {
    Step(s.(token := None, isLoggedIn := false, storedToken := None), [PostLogout(s.token)], [LogoutSucceeded])
  }
}
