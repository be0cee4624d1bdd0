/** The authentication provider of src/contexts/AuthContext.tsx: the `users` table,
    the `currentUser` storage slot, and the `currentUser`/`isLoading` state of the
    provider, with the rules for restore, login, signup and logout. */
module AuthContext {
  import opened Common
  import opened Seqs

  /** The sanitized user the session carries: no password. */
  datatype User = User(id: string, name: string, email: string)

  /** A record of the `users` table, password in plain text as the application stores it. */
  datatype UserRec = UserRec(id: string, name: string, email: string, password: string, createdAt: Timestamp)

  /** The `currentUser` storage slot as restore finds it: missing, holding the empty
      string (which is falsy and so skipped), holding text that does not parse, or
      holding a saved user. */
  datatype SessionSlot = NoSession | BlankSession | MalformedSession | SavedSession(user: User)

  datatype AuthError = InvalidCredentials | EmailExists

  /** The message of the error the provider throws. */
  function ErrorMessage(e: AuthError): (m: string)
    ensures m != ""
  {
    match e
    case InvalidCredentials => "Invalid email or password"
    case EmailExists => "Email already exists"
  }

  /** The catch blocks of `login` and `signup` show the thrown message, never their
      fallback, and the two errors read differently. */
  lemma ErrorToastShowsMessage(e: AuthError, other: AuthError)
    ensures ToastText(ErrorMessage(e), "Failed to login") == ErrorMessage(e)
    ensures ToastText(ErrorMessage(e), "Failed to create account") == ErrorMessage(e)
    ensures e != other ==> ErrorMessage(e) != ErrorMessage(other)
  {
  }

  /** Everything the provider keeps: the two storage slots and its two state variables. */
  datatype AuthState = AuthState(users: seq<UserRec>, slot: SessionSlot, currentUser: Option<User>, isLoading: bool)

  /** The outcome of an operation together with the state it leaves. */
  datatype Step = Step(outcome: Outcome<AuthError>, post: AuthState)

  function Sanitize(u: UserRec): User {
    User(u.id, u.name, u.email)
  }

  function Credentials(email: string, password: string): UserRec -> bool {
    (u: UserRec) => u.email == email && u.password == password
  }

  /** `users.some(user => user.email === email)`. */
  predicate EmailTaken(users: seq<UserRec>, email: string) {
    exists k :: 0 <= k < |users| && users[k].email == email
  }

  /** No two records of the table share an email. */
  ghost predicate DistinctEmails(users: seq<UserRec>) {
    forall j, k :: 0 <= j < k < |users| ==> users[j].email != users[k].email
  }

  /** The provider's state and the session slot agree: a user is signed in exactly
      when the slot holds that user. */
  predicate Synced(s: AuthState) {
    s.currentUser == if s.slot.SavedSession? then Some(s.slot.user) else None
  }

  /** `k` is the record that `users.find` returns for these credentials. */
  predicate IsFirstMatch(users: seq<UserRec>, email: string, password: string, k: int) {
    0 <= k < |users| && users[k].email == email && users[k].password == password
    && forall j :: 0 <= j < k ==> !(users[j].email == email && users[j].password == password)
  }

  /** The state of the provider when it mounts. */
  function Initial(users: seq<UserRec>, slot: SessionSlot): (s: AuthState)
    ensures s.currentUser.None? && s.isLoading
  {
    AuthState(users, slot, None, true)
  }

  /** The mount effect: a saved user becomes current, unparseable text is removed
      from the slot, and loading ends in every case. */
  function RestoreStep(s: AuthState): (r: AuthState)
    ensures r.users == s.users && !r.isLoading
    ensures s.slot.SavedSession? ==> r.currentUser == Some(s.slot.user) && r.slot == s.slot
    ensures s.slot.MalformedSession? ==> r.slot == NoSession && r.currentUser == s.currentUser
    ensures (s.slot.NoSession? || s.slot.BlankSession?) ==> r.slot == s.slot && r.currentUser == s.currentUser
    ensures s.currentUser.None? ==> Synced(r)
  {
    match s.slot
    case SavedSession(u) => s.(currentUser := Some(u), isLoading := false)
    case MalformedSession => s.(slot := NoSession, isLoading := false)
    case _ => s.(isLoading := false)
  }

  /** `login`: the first record matching both email and password exactly becomes the
      session; otherwise the session stays as it was. */
  function LoginStep(s: AuthState, email: string, password: string): (r: Step)
    ensures r.outcome == Pass <==> exists k :: 0 <= k < |s.users| && s.users[k].email == email && s.users[k].password == password
    ensures r.outcome.Fail? ==> r.outcome.error == InvalidCredentials && r.post == s.(isLoading := false)
    ensures r.outcome == Pass ==> exists k :: (IsFirstMatch(s.users, email, password, k)
      && r.post == s.(slot := SavedSession(Sanitize(s.users[k])), currentUser := Some(Sanitize(s.users[k])), isLoading := false))
    ensures r.post.users == s.users && !r.post.isLoading
    ensures Synced(s) ==> Synced(r.post)
  {
    match FirstIndex(s.users, Credentials(email, password))
    case None => Step(Fail(InvalidCredentials), s.(isLoading := false))
    case Some(k) =>
      assert IsFirstMatch(s.users, email, password, k);
      var u := Sanitize(s.users[k]);
      Step(Pass, s.(slot := SavedSession(u), currentUser := Some(u), isLoading := false))
  }

  /** `signup`: an email already in the table is refused; otherwise one record is
      appended and its sanitized form becomes the session. */
  function SignupStep(s: AuthState, name: string, email: string, password: string, id: string, createdAt: Timestamp): (r: Step)
    ensures r.outcome == Fail(EmailExists) <==> EmailTaken(s.users, email)
    ensures r.outcome.Fail? <==> EmailTaken(s.users, email)
    ensures r.outcome.Fail? ==> r.post == s.(isLoading := false)
    ensures r.outcome == Pass ==> r.post.users == s.users + [UserRec(id, name, email, password, createdAt)]
    ensures r.outcome == Pass ==> r.post.currentUser == Some(User(id, name, email)) && Synced(r.post)
    ensures DistinctEmails(s.users) ==> DistinctEmails(r.post.users)
    ensures !r.post.isLoading
    ensures Synced(s) ==> Synced(r.post)
  {
    if EmailTaken(s.users, email) then Step(Fail(EmailExists), s.(isLoading := false))
    else
      var rec := UserRec(id, name, email, password, createdAt);
      var u := Sanitize(rec);
      Step(Pass, AuthState(s.users + [rec], SavedSession(u), Some(u), false))
  }

  /** `logout`: no user and an empty slot, whatever came before. */
  function LogoutStep(s: AuthState): (r: AuthState)
    ensures r.currentUser.None? && r.slot == NoSession && Synced(r)
    ensures r.users == s.users && r.isLoading == s.isLoading
  {
    s.(currentUser := None, slot := NoSession)
  }

  /** Signing up and then logging in with the same email and password finds the new
      record, whatever else the table holds. */
  lemma SignupThenLogin(s: AuthState, name: string, email: string, password: string, id: string, createdAt: Timestamp)
    requires SignupStep(s, name, email, password, id, createdAt).outcome == Pass
    ensures var s1 := SignupStep(s, name, email, password, id, createdAt).post;
      && LoginStep(s1, email, password).outcome == Pass
      && LoginStep(s1, email, password).post.currentUser == Some(User(id, name, email))
  {
    var rec := UserRec(id, name, email, password, createdAt);
    FirstIndexAppend(s.users, rec, Credentials(email, password));
    assert FirstIndex(s.users, Credentials(email, password)).None?;
    assert (s.users + [rec])[|s.users|] == rec;
  }

  /** Signing up twice with one email: the second attempt is refused. */
  lemma SecondSignupRefused(s: AuthState, name: string, email: string, password: string, id: string, createdAt: Timestamp,
                            name2: string, password2: string, id2: string, createdAt2: Timestamp)
    requires SignupStep(s, name, email, password, id, createdAt).outcome == Pass
    ensures var s1 := SignupStep(s, name, email, password, id, createdAt).post;
      SignupStep(s1, name2, email, password2, id2, createdAt2).outcome == Fail(EmailExists)
  {
    var s1 := SignupStep(s, name, email, password, id, createdAt).post;
    assert s1.users[|s.users|].email == email;
  }

  /** The provider. The two storage slots and the two state variables are fields;
      each operation updates them step by step as the source does. */
  class AuthStore {
    var users: seq<UserRec>
    var sessionSlot: SessionSlot
    var currentUser: Option<User>
    var isLoading: bool

    ghost function State(): AuthState
      reads this
    {
      AuthState(users, sessionSlot, currentUser, isLoading)
    }

    /** The provider as it mounts, over what local storage already holds. */
    constructor (savedUsers: seq<UserRec>, savedSlot: SessionSlot)
      ensures State() == Initial(savedUsers, savedSlot)
    {
      users := savedUsers;
      sessionSlot := savedSlot;
      currentUser := None;
      isLoading := true;
    }

    /** The mount effect. */
    method Restore()
      modifies this
      ensures State() == RestoreStep(old(State()))
    {
      match sessionSlot {
        case SavedSession(u) => currentUser := Some(u);
        case MalformedSession => sessionSlot := NoSession;
        case _ =>
      }
      isLoading := false;
    }

    method Login(email: string, password: string) returns (outcome: Outcome<AuthError>)
      modifies this
      ensures Step(outcome, State()) == LoginStep(old(State()), email, password)
    {
      isLoading := true;
      var loaded := users;
      var found := FirstIndex(loaded, Credentials(email, password));
      if found.None? {
        outcome := Fail(InvalidCredentials);
      } else {
        var authUser := Sanitize(loaded[found.value]);
        currentUser := Some(authUser);
        sessionSlot := SavedSession(authUser);
        outcome := Pass;
      }
      isLoading := false;
    }

    method Signup(name: string, email: string, password: string, id: string, createdAt: Timestamp)
      returns (outcome: Outcome<AuthError>)
      modifies this
      ensures Step(outcome, State()) == SignupStep(old(State()), name, email, password, id, createdAt)
    {
      isLoading := true;
      var loaded := users;
      if EmailTaken(loaded, email) {
        outcome := Fail(EmailExists);
      } else {
        var newUser := UserRec(id, name, email, password, createdAt);
        loaded := loaded + [newUser];
        users := loaded;
        var authUser := Sanitize(newUser);
        currentUser := Some(authUser);
        sessionSlot := SavedSession(authUser);
        outcome := Pass;
      }
      isLoading := false;
    }

    method Logout()
      modifies this
      ensures State() == LogoutStep(old(State()))
    {
      currentUser := None;
      sessionSlot := NoSession;
    }
  }

  /** A caller that signs up and then logs in again with the same credentials. */
  method SignupThenLoginAgain(store: AuthStore, name: string, email: string, password: string, id: string, createdAt: Timestamp)
    returns (signedUp: Outcome<AuthError>, loggedIn: Outcome<AuthError>)
    modifies store
    ensures signedUp == Pass ==> loggedIn == Pass && store.currentUser == Some(User(id, name, email))
    ensures signedUp.Fail? ==> signedUp.error == EmailExists
  {
    ghost var s0 := store.State();
    signedUp := store.Signup(name, email, password, id, createdAt);
    store.Logout();
    ghost var s1 := store.State();
    loggedIn := store.Login(email, password);
    if signedUp == Pass {
      SignupThenLogin(s0, name, email, password, id, createdAt);
      var s2 := SignupStep(s0, name, email, password, id, createdAt).post;
      assert s1.users == s2.users;
      assert LoginStep(s1, email, password).outcome == LoginStep(s2, email, password).outcome;
    }
  }
}
