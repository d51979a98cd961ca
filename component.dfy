/** The `App` component itself: its `useState` variables as fields, the
    persisted `'token'` entry as one more field, and each handler as a
    method that updates them one setter at a time. Every method is proved
    to have exactly the effect that the matching function of module
    Handlers describes, so what is proved there holds of these methods. */
module Component {
  import opened Types
  import Handlers

  class App {
    var isLoggedIn: bool
    var token: Option<string>
    var activeTab: AuthTab
    var profileTab: ProfileTab
    var loginForm: LoginForm
    var registerForm: AccountForm
    var userInfo: UserInfo
    var updateForm: AccountForm
    /** The device storage entry under the key `'token'`. */
    var storage: Option<string>

    /** The whole state of the component as one value. */
    function Snapshot(): State
      reads this
    {
      State(isLoggedIn, token, activeTab, profileTab, loginForm, registerForm, userInfo, updateForm, storage)
    }

    /** The first render: every `useState` at its initial value; `persisted`
        is what the storage already holds. */
    constructor (persisted: Option<string>)
      ensures Snapshot() == Handlers.Initial(persisted)
    {
      isLoggedIn := false;
      token := None;
      activeTab := LoginTab;
      profileTab := InfoTab;
      loginForm := EmptyLogin;
      registerForm := EmptyAccount;
      userInfo := UserInfo("", "");
      updateForm := EmptyAccount;
      storage := persisted;
    }

    method FetchUserInfo(authToken: string, reply: Response<UserInfo>) returns (requests: seq<Request>, alerts: seq<Alert>)
      modifies this
      ensures Snapshot() == Handlers.FetchUserInfo(old(Snapshot()), authToken, reply).state
      ensures requests == Handlers.FetchUserInfo(old(Snapshot()), authToken, reply).requests
      ensures alerts == Handlers.FetchUserInfo(old(Snapshot()), authToken, reply).alerts
    {
      requests := [GetUser(authToken)];
      alerts := [];
      match reply {
        case Ok(data) =>
          userInfo := data;
          updateForm := AccountForm(data.name, data.email, "", "");
          isLoggedIn := true;
        case NotOk(_) =>
          storage := None;
          token := None;
        case Exception =>
          alerts := [ProfileUnavailable];
      }
    }

    method CheckToken(reply: Response<UserInfo>) returns (requests: seq<Request>, alerts: seq<Alert>)
      modifies this
      ensures Snapshot() == Handlers.CheckToken(old(Snapshot()), reply).state
      ensures requests == Handlers.CheckToken(old(Snapshot()), reply).requests
      ensures alerts == Handlers.CheckToken(old(Snapshot()), reply).alerts
    {
      var storedToken := storage;
      requests, alerts := [], [];
      if storedToken.Some? && storedToken.value != "" {
        token := storedToken;
        requests, alerts := FetchUserInfo(storedToken.value, reply);
      }
    }

    method HandleLogin(reply: Response<string>, profile: Response<UserInfo>) returns (requests: seq<Request>, alerts: seq<Alert>)
      modifies this
      ensures Snapshot() == Handlers.Login(old(Snapshot()), reply, profile).state
      ensures requests == Handlers.Login(old(Snapshot()), reply, profile).requests
      ensures alerts == Handlers.Login(old(Snapshot()), reply, profile).alerts
    {
      if loginForm.email == "" || loginForm.password == "" {
        return [], [MissingFields];
      }
      requests := [PostLogin(loginForm)];
      match reply {
        case Ok(t) =>
          token := Some(t);
          storage := Some(t);
          var fetched, shown := FetchUserInfo(t, profile);
          requests := requests + fetched;
          alerts := shown + [LoginSucceeded];
        case NotOk(m) =>
          alerts := [ServerError(MessageOr(m, LoginFailed))];
        case Exception =>
          alerts := [ConnectionError];
      }
    }

    method HandleRegister(reply: Response<()>) returns (requests: seq<Request>, alerts: seq<Alert>)
      modifies this
      ensures Snapshot() == Handlers.Register(old(Snapshot()), reply).state
      ensures requests == Handlers.Register(old(Snapshot()), reply).requests
      ensures alerts == Handlers.Register(old(Snapshot()), reply).alerts
    {
      if registerForm.name == "" || registerForm.email == "" || registerForm.password == "" || registerForm.passwordConfirmation == "" {
        return [], [MissingFields];
      }
      if registerForm.password != registerForm.passwordConfirmation {
        return [], [PasswordsMismatch];
      }
      requests := [PostRegister(registerForm)];
      match reply {
        case Ok(_) =>
          alerts := [RegisterSucceeded];
          activeTab := LoginTab;
          registerForm := EmptyAccount;
        case NotOk(m) =>
          alerts := [ServerError(MessageOr(m, RegistrationFailed))];
        case Exception =>
          alerts := [ConnectionError];
      }
    }

    method HandleUpdate(reply: Response<UserInfo>) returns (requests: seq<Request>, alerts: seq<Alert>)
      modifies this
      ensures Snapshot() == Handlers.Update(old(Snapshot()), reply).state
      ensures requests == Handlers.Update(old(Snapshot()), reply).requests
      ensures alerts == Handlers.Update(old(Snapshot()), reply).alerts
    {
      if updateForm.password != "" && updateForm.password != updateForm.passwordConfirmation {
        return [], [PasswordsMismatch];
      }
      requests := [PutUpdate(token, updateForm)];
      match reply {
        case Ok(data) =>
          userInfo := data;
          alerts := [UpdateSucceeded];
        case NotOk(m) =>
          alerts := [ServerError(MessageOr(m, UpdateFailed))];
        case Exception =>
          alerts := [ConnectionError];
      }
    }

    /** The reply to POST /logout is not read: a failure is only logged. */
    method HandleLogout(reply: Response<()>) returns (requests: seq<Request>, alerts: seq<Alert>)
      modifies this
      ensures Snapshot() == Handlers.Logout(old(Snapshot()), reply).state
      ensures requests == Handlers.Logout(old(Snapshot()), reply).requests
      ensures alerts == Handlers.Logout(old(Snapshot()), reply).alerts
    {
      requests := [PostLogout(token)];
      token := None;
      isLoggedIn := false;
      storage := None;
      alerts := [LogoutSucceeded];
    }
  }
}
