/** The screen around the handlers: which inputs and buttons are rendered
    is decided by `isLoggedIn` and the two tab selectors, so a handler can
    only run from the view that shows its button. A session is the mount
    effect followed by any sequence of user events, one at a time, each
    running to completion. The lemmas prove what holds of every state and
    every request such a session can produce. */
module Screen {
  import opened Types
  import opened Handlers

  datatype LoginField = LoginEmail | LoginPassword
  datatype AccountField = Name | Email | Password | Confirmation

  /** One user action on the rendered screen, carrying the server replies
      that the handler it triggers will receive. */
  datatype Event =
    | ChooseAuthTab(authTab: AuthTab)
    | TypeLogin(loginField: LoginField, loginText: string)
    | PressLogin(credentialsReply: Response<string>, profileReply: Response<UserInfo>)
    | TypeRegister(registerField: AccountField, registerText: string)
    | PressRegister(registerReply: Response<()>)
    | ChooseProfileTab(profileTab: ProfileTab)
    | TypeUpdate(updateField: AccountField, updateText: string)
    | PressUpdate(updateReply: Response<UserInfo>)
    | PressLogout(logoutReply: Response<()>)

  /** The login form and its button are on screen. */
  predicate LoginShown(s: State) { !s.isLoggedIn && s.activeTab == LoginTab }
  /** The register form and its button are on screen. */
  predicate RegisterShown(s: State) { !s.isLoggedIn && s.activeTab == RegisterTab }
  /** The update form and its button are on screen. */
  predicate UpdateShown(s: State) { s.isLoggedIn && s.profileTab == InfoTab }
  /** The logout button is on screen. */
  predicate LogoutShown(s: State) { s.isLoggedIn && s.profileTab == LogoutTab }

  /** `setLoginForm({ ...loginForm, <field>: text })` */
  function EditLogin(f: LoginForm, field: LoginField, text: string): LoginForm {
    match field
    case LoginEmail => f.(email := text)
    case LoginPassword => f.(password := text)
  }

  /** `setRegisterForm` / `setUpdateForm` with one field replaced. */
  function EditAccount(f: AccountForm, field: AccountField, text: string): AccountForm {
    match field
    case Name => f.(name := text)
    case Email => f.(email := text)
    case Password => f.(password := text)
    case Confirmation => f.(passwordConfirmation := text)
  }

  /** An event aimed at something that is not rendered does nothing. */
  function Idle(s: State): Step { Step(s, [], []) }

  /** The in-memory token and the persisted one agree: a token held in
      memory is the stored one, a truthy stored token is held in memory, and
      a logged-in component always holds a token. */
  predicate Reconciled(s: State) {
    (s.token.Some? ==> s.storedToken == s.token) &&
    (Truthy(s.storedToken) ==> s.token == s.storedToken) &&
    (s.isLoggedIn ==> s.token.Some?)
  }

  /** `e` is a press of the rendered login button, with both fields filled,
      whose credentials and profile replies are both 2xx. */
  predicate AcceptedLogin(s: State, e: Event) {
    LoginShown(s) && !LoginIncomplete(s.loginForm) &&
    e.PressLogin? && e.credentialsReply.Ok? && e.profileReply.Ok?
  }

  /** A request the component may send: validated forms, and a real
      bearer on every authorised call made from the profile view. */
  predicate Guarded(rq: Request) {
    match rq
    case GetUser(_) => true
    case PostLogin(f) => !LoginIncomplete(f)
    case PostRegister(f) => !RegisterIncomplete(f) && f.password == f.passwordConfirmation
    case PutUpdate(auth, f) => auth.Some? && !UpdateMismatch(f)
    case PostLogout(auth) => auth.Some?
  }

  predicate AllGuarded(rqs: seq<Request>) {
    forall i :: 0 <= i < |rqs| ==> Guarded(rqs[i])
  }

  /** One event on the current screen. */
  function Dispatch(s: State, e: Event): (r: Step)
    ensures Reconciled(s) ==> Reconciled(r.state) && AllGuarded(r.requests)
    ensures r.state.isLoggedIn && !s.isLoggedIn ==> AcceptedLogin(s, e)
  {
    match e
    case ChooseAuthTab(t) =>
      if !s.isLoggedIn then Step(s.(activeTab := t), [], []) else Idle(s)
    case TypeLogin(field, text) =>
      if LoginShown(s) then Step(s.(loginForm := EditLogin(s.loginForm, field, text)), [], []) else Idle(s)
    case PressLogin(reply, profile) =>
      if LoginShown(s) then Login(s, reply, profile) else Idle(s)
    case TypeRegister(field, text) =>
      if RegisterShown(s) then Step(s.(registerForm := EditAccount(s.registerForm, field, text)), [], []) else Idle(s)
    case PressRegister(reply) =>
      if RegisterShown(s) then Register(s, reply) else Idle(s)
    case ChooseProfileTab(t) =>
      if s.isLoggedIn then Step(s.(profileTab := t), [], []) else Idle(s)
    case TypeUpdate(field, text) =>
      if UpdateShown(s) then Step(s.(updateForm := EditAccount(s.updateForm, field, text)), [], []) else Idle(s)
    case PressUpdate(reply) =>
      if UpdateShown(s) then Update(s, reply) else Idle(s)
    case PressLogout(reply) =>
      if LogoutShown(s) then Logout(s, reply) else Idle(s)
  }

  /** The events handled one after another, their requests and alerts
      concatenated in order. */
  function Run(s: State, events: seq<Event>): Step
    decreases |events|
  {
    if events == [] then Step(s, [], [])
    else
      var first := Dispatch(s, events[0]);
      var rest := Run(first.state, events[1..]);
      Step(rest.state, first.requests + rest.requests, first.alerts + rest.alerts)
  }

  /** `useEffect(() => { checkToken(); }, [])`: the first render, then the
      token check. */
  function Mount(persisted: Option<string>, reply: Response<UserInfo>): (r: Step)
    ensures Reconciled(r.state) && AllGuarded(r.requests)
    ensures !Truthy(persisted) ==> r.requests == [] && !r.state.isLoggedIn && r.state == Initial(persisted)
    ensures Truthy(persisted) && reply.Ok? ==>
      r.state.isLoggedIn && r.state.token == persisted && r.state.userInfo == reply.payload
    ensures Truthy(persisted) && reply.NotOk? ==>
      !r.state.isLoggedIn && r.state.token == None && r.state.storedToken == None && r.alerts == []
    ensures Truthy(persisted) && reply.Exception? ==>
      !r.state.isLoggedIn && r.state.token == persisted && r.alerts == [ProfileUnavailable]
  {
    CheckToken(Initial(persisted), reply)
  }

  /** A whole app run: mount, then the user's events. */
  function Session(persisted: Option<string>, reply: Response<UserInfo>, events: seq<Event>): Step {
    var mounted := Mount(persisted, reply);
    var run := Run(mounted.state, events);
    Step(run.state, mounted.requests + run.requests, mounted.alerts + run.alerts)
  }

  lemma GuardedConcat(a: seq<Request>, b: seq<Request>)
    requires AllGuarded(a) && AllGuarded(b)
    ensures AllGuarded(a + b)
  {
  }

  /** Running any events from a reconciled state keeps it reconciled and
      sends only guarded requests. */
  lemma {:induction false} RunKeepsReconciled(s: State, events: seq<Event>)
    requires Reconciled(s)
    ensures Reconciled(Run(s, events).state) && AllGuarded(Run(s, events).requests)
    decreases |events|
  {
    if events != [] {
      var first := Dispatch(s, events[0]);
      RunKeepsReconciled(first.state, events[1..]);
      GuardedConcat(first.requests, Run(first.state, events[1..]).requests);
    }
  }

  /** Every state a session reaches is reconciled, and every request it sends
      passed the handler's own validation and carries a token where the
      endpoint needs one. */
  lemma {:induction false} SessionIsReconciled(persisted: Option<string>, reply: Response<UserInfo>, events: seq<Event>)
    ensures Reconciled(Session(persisted, reply, events).state)
    ensures AllGuarded(Session(persisted, reply, events).requests)
  {
    var mounted := Mount(persisted, reply);
    RunKeepsReconciled(mounted.state, events);
    GuardedConcat(mounted.requests, Run(mounted.state, events).requests);
  }

  /** A logged-out component becomes logged in only through a press of the
      rendered login button, with both fields filled, whose credentials and
      following profile fetch the server both accepted. */
  lemma {:induction false} LoginNeedsProfileFetch(s: State, events: seq<Event>)
    requires !s.isLoggedIn && Run(s, events).state.isLoggedIn
    ensures exists i :: 0 <= i < |events| && AcceptedLogin(Run(s, events[..i]).state, events[i])
    decreases |events|
  {
    var first := Dispatch(s, events[0]);
    if first.state.isLoggedIn {
      assert events[..0] == [];
      assert AcceptedLogin(Run(s, events[..0]).state, events[0]);
    } else {
      LoginNeedsProfileFetch(first.state, events[1..]);
      var i :| 0 <= i < |events[1..]| && AcceptedLogin(Run(first.state, events[1..][..i]).state, events[1..][i]);
      assert events[..i + 1][0] == events[0];
      assert events[..i + 1][1..] == events[1..][..i];
      assert Run(s, events[..i + 1]).state == Run(first.state, events[1..][..i]).state;
      assert AcceptedLogin(Run(s, events[..i + 1]).state, events[i + 1]);
    }
  }
}
