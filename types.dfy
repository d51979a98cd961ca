/** Values shared by the session model: the component's state, the abstract
    server replies that stand in for `fetch`, the requests the component
    issues and the alerts it shows. */
module Types {

  datatype Option<+T> = None | Some(value: T)

  /** JavaScript truthiness of a nullable string: `null` and `''` are falsy. */
  predicate Truthy(s: Option<string>) {
    s.Some? && s.value != ""
  }

  /** The login form: `{ email, password }`. */
  datatype LoginForm = LoginForm(email: string, password: string)

  /** The register and update forms share one shape:
      `{ name, email, password, password_confirmation }`. */
  datatype AccountForm = AccountForm(name: string, email: string, password: string, passwordConfirmation: string)

  /** The profile shown to a logged-in user, `userInfo`. */
  datatype UserInfo = UserInfo(name: string, email: string)

  /** `activeTab`: the source only ever sets it to 'login' or 'register'. */
  datatype AuthTab = LoginTab | RegisterTab

  /** `profileTab`: the source only ever sets it to 'info' or 'logout'. */
  datatype ProfileTab = InfoTab | LogoutTab

  const EmptyLogin := LoginForm("", "")
  const EmptyAccount := AccountForm("", "", "", "")

  /** One HTTP exchange as the handler sees it: a 2xx reply with its parsed
      payload, a non-2xx reply with the `message` field of its body (if any),
      or a thrown exception (network failure, or a body that is not JSON). */
  datatype Response<+T> = Ok(payload: T) | NotOk(message: Option<string>) | Exception

  /** The requests the component sends; a bearer of `None` is the
      header `Bearer null`. */
  datatype Request =
    | GetUser(bearer: string)
    | PostLogin(credentials: LoginForm)
    | PostRegister(account: AccountForm)
    | PutUpdate(auth: Option<string>, changes: AccountForm)
    | PostLogout(auth: Option<string>)

  /** The alerts the component raises, without their exact wording except
      for the server-supplied or fallback message of a rejected request. */
  datatype Alert =
    | MissingFields
    | PasswordsMismatch
    | ServerError(message: string)
    | ConnectionError
    | ProfileUnavailable
    | LoginSucceeded
    | RegisterSucceeded
    | UpdateSucceeded
    | LogoutSucceeded

  const LoginFailed := "Login failed"
  const RegistrationFailed := "Registration failed"
  const UpdateFailed := "Update failed"

  /** `data.message || fallback`: an absent or empty message gives the fallback. */
  function MessageOr(message: Option<string>, fallback: string): string {
    if Truthy(message) then message.value else fallback
  }

  /** Every piece of component state, with `storedToken` standing for the
      persisted `'token'` entry of the device storage. */
  datatype State = State(
    isLoggedIn: bool,
    token: Option<string>,
    activeTab: AuthTab,
    profileTab: ProfileTab,
    loginForm: LoginForm,
    registerForm: AccountForm,
    userInfo: UserInfo,
    updateForm: AccountForm,
    storedToken: Option<string>)

  /** What one handler run does: the state it leaves, the requests it
      issues in order, and the alerts it raises in order. */
  datatype Step = Step(state: State, requests: seq<Request>, alerts: seq<Alert>)
}
