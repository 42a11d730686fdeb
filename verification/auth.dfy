/**
 * `AuthProvider` of `src/contexts/AuthContext.tsx`: the session state (user, isLoading,
 * isAuthenticated) next to the one persisted entry under the key `aiStudioUser`.
 * The persisted entry holds the decoded user record; a write that throws is
 * represented by the `storageWritable` flag.
 */
module Auth {
  import opened Wrappers
  import opened Feedback

  datatype User = User(id: string, name: string, email: string, avatar: Option<string>)

  datatype Session = Session(user: Option<User>, isLoading: bool, isAuthenticated: bool)

  /** The session together with the persisted user entry. */
  datatype AuthState = AuthState(session: Session, storage: Option<User>)

  /** An operation's resulting state and the toast it raises. */
  datatype Transition = Transition(next: AuthState, notice: Notice)

  const DemoEmail := "demo@aistudio.com"
  const DemoPassword := "password"
  const DemoUser := User("1", "Demo User", DemoEmail, Some(""))

  /** Session and storage agree: authenticated exactly when a user is set, and that user is the stored one. */
  ghost predicate Consistent(a: AuthState) {
    && (a.session.isAuthenticated <==> a.session.user.Some?)
    && a.session.user == a.storage
  }

  /** The provider's first render: no user, loading, not authenticated. */
  function Initial(storage: Option<User>): (a: AuthState)
    ensures a.session.user.None? && a.session.isLoading && !a.session.isAuthenticated
    ensures a.storage == storage
  {
    AuthState(Session(None, true, false), storage)
  }

  /** The mount effect: adopt the stored user if there is one, then stop loading. */
  function Restore(a: AuthState): (r: AuthState)
    ensures r.storage == a.storage && !r.session.isLoading
    ensures a.storage.Some? ==> r.session.user == a.storage && r.session.isAuthenticated
    ensures a.storage.None? ==> r.session == a.session.(isLoading := false)
  {
    match a.storage
    case Some(u) => a.(session := Session(Some(u), false, true))
    case None => a.(session := a.session.(isLoading := false))
  }

  /** Restoring at start-up leaves session and storage consistent, whatever was stored. */
  lemma RestoreEstablishesConsistency(storage: Option<User>)
    ensures Consistent(Restore(Initial(storage)))
    ensures Restore(Initial(storage)).session.isAuthenticated <==> storage.Some?
  {
  }

  /** Signs `u` in: persist first, then set the session; a failed write changes nothing. */
  function SignIn(a: AuthState, u: User, storageWritable: bool, ok: string, failed: string): (t: Transition)
    ensures !t.next.session.isLoading
    ensures storageWritable ==> t.next == AuthState(Session(Some(u), false, true), Some(u)) && t.notice == Success(ok)
    ensures !storageWritable ==> t.next == a.(session := a.session.(isLoading := false)) && t.notice == Error(failed)
  {
    if storageWritable then Transition(AuthState(Session(Some(u), false, true), Some(u)), Success(ok))
    else Transition(a.(session := a.session.(isLoading := false)), Error(failed))
  }

  /** `login`: only the demo credentials succeed. */
  function Login(a: AuthState, email: string, password: string, storageWritable: bool): (t: Transition)
    ensures !t.next.session.isLoading
    ensures Consistent(a) ==> Consistent(t.next)
    ensures (email == DemoEmail && password == DemoPassword && storageWritable) <==> t.notice.Success?
    ensures t.notice.Success? ==>
      t.next.session.user == Some(DemoUser) && t.next.storage == Some(DemoUser) && t.next.session.isAuthenticated
    ensures !t.notice.Success? ==>
      t.next.session.user == a.session.user && t.next.storage == a.storage
      && t.next.session.isAuthenticated == a.session.isAuthenticated
    ensures (email != DemoEmail || password != DemoPassword) ==> t.notice == Error("Invalid credentials")
  {
    if email == DemoEmail && password == DemoPassword then
      SignIn(a, DemoUser, storageWritable, "Login successful", "Failed to login")
    else
      Transition(a.(session := a.session.(isLoading := false)), Error("Invalid credentials"))
  }

  /** `signup`: the password is ignored and any name and e-mail are accepted, with the fixed id "1". */
  function Signup(a: AuthState, name: string, email: string, password: string, storageWritable: bool): (t: Transition)
    ensures !t.next.session.isLoading
    ensures Consistent(a) ==> Consistent(t.next)
    ensures storageWritable <==> t.notice.Success?
    ensures storageWritable ==>
      t.next.session.user == Some(User("1", name, email, Some("")))
      && t.next.storage == t.next.session.user && t.next.session.isAuthenticated
    ensures !storageWritable ==>
      t.next.session.user == a.session.user && t.next.storage == a.storage
      && t.next.session.isAuthenticated == a.session.isAuthenticated
  {
    SignIn(a, User("1", name, email, Some("")), storageWritable, "Account created successfully", "Failed to create account")
  }

  /** The password given to `signup` has no effect. */
  lemma SignupIgnoresPassword(a: AuthState, name: string, email: string, p1: string, p2: string, storageWritable: bool)
    ensures Signup(a, name, email, p1, storageWritable) == Signup(a, name, email, p2, storageWritable)
  {
  }

  /** `logout`: clears storage and session and always reports success. */
  function Logout(a: AuthState): (t: Transition)
    ensures t.next.storage.None? && t.next.session.user.None? && !t.next.session.isAuthenticated
    ensures t.next.session.isLoading == a.session.isLoading
    ensures Consistent(t.next)
    ensures t.notice == Success("Logged out successfully")
  {
    Transition(AuthState(a.session.(user := None, isAuthenticated := false), None), Success("Logged out successfully"))
  }

  /** Logging out twice is the same as logging out once. */
  lemma LogoutIdempotent(a: AuthState)
    ensures Logout(Logout(a).next) == Logout(a)
  {
  }

  /** A signed-up user is restored, with the same name and e-mail, by the next start-up. */
  lemma SignupSurvivesReload(a: AuthState, name: string, email: string, password: string)
    ensures var stored := Signup(a, name, email, password, true).next.storage;
      var s := Restore(Initial(stored)).session;
      s.isAuthenticated && s.user.Some? && s.user.value.name == name && s.user.value.email == email
  {
  }

  /** After logout the next start-up is anonymous. */
  lemma LogoutSurvivesReload(a: AuthState)
    ensures var s := Restore(Initial(Logout(a).next.storage)).session;
      !s.isAuthenticated && s.user.None?
  {
  }

  /** The operations a user can trigger after start-up; a reload mounts the provider afresh over the stored cell. */
  datatype Action =
    | LoginAction(email: string, password: string, storageWritable: bool)
    | SignupAction(name: string, email: string, password: string, storageWritable: bool)
    | LogoutAction
    | ReloadAction

  function Apply(a: AuthState, act: Action): AuthState {
    match act
    case LoginAction(e, p, w) => Login(a, e, p, w).next
    case SignupAction(n, e, p, w) => Signup(a, n, e, p, w).next
    case LogoutAction => Logout(a).next
    case ReloadAction => Restore(Initial(a.storage))
  }

  function Run(a: AuthState, acts: seq<Action>): AuthState
    decreases |acts|
  {
    if |acts| == 0 then a else Run(Apply(a, acts[0]), acts[1..])
  }

  /** From start-up on, every sequence of actions keeps session and storage consistent. */
  lemma {:induction false} ConsistentAfterAnyActions(storage: Option<User>, acts: seq<Action>)
    ensures Consistent(Run(Restore(Initial(storage)), acts))
  {
    RunPreservesConsistency(Restore(Initial(storage)), acts);
  }

  lemma {:induction false} RunPreservesConsistency(a: AuthState, acts: seq<Action>)
    requires Consistent(a)
    ensures Consistent(Run(a, acts))
    decreases |acts|
  {
    if |acts| > 0 {
      if acts[0].ReloadAction? {
        RestoreEstablishesConsistency(a.storage);
      }
      RunPreservesConsistency(Apply(a, acts[0]), acts[1..]);
    }
  }
}
