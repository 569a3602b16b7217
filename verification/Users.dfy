/** Users and web sessions (app/core/users.py). */
module Users {
  import opened Wrappers
  import opened PyText

  type UserId = nat

  datatype Role = Admin | Regular

  datatype Status = Active | Inactive | Deleted

  /** `password` stands for its salted hash, which only that password verifies. */
  datatype User = User(username: string, role: Role, status: Status, password: string)

  datatype WebSession = WebSession(user: UserId, expiresAt: int, revoked: bool)

  /** Web sessions are found by the digest of their token, which is taken to be free of collisions. */
  type Token = string

  datatype State = State(users: map<UserId, User>, sessions: map<Token, WebSession>, nextId: UserId)

  const INIT := State(map[], map[], 0)

  // ----- Usernames ----------------------------------------------------------------------

  function Normalise(username: string): string {
    Lower(Strip(username))
  }

  /** Without surrounding whitespace or capitals. */
  ghost predicate IsNormal(name: string) {
    Stripped(name) && forall i | 0 <= i < |name| :: LowerChar(name[i]) == name[i]
  }

  lemma LowerKeepsSpace(c: char)
    ensures IsSpace(LowerChar(c)) == IsSpace(c) && LowerChar(LowerChar(c)) == LowerChar(c)
  {}

  lemma NormaliseMakesNormal(username: string)
    ensures IsNormal(Normalise(username))
  {
    var t, n := Strip(username), Normalise(username);
    if t != "" {
      LowerKeepsSpace(t[0]);
      LowerKeepsSpace(t[|t| - 1]);
    }
    forall i | 0 <= i < |n| ensures LowerChar(n[i]) == n[i] { LowerKeepsSpace(t[i]); }
  }

  lemma NormalStays(name: string)
    requires IsNormal(name)
    ensures Normalise(name) == name
  {
    StripOfStripped(name);
    assert Lower(name) == name;
  }

  /** Normalising twice is normalising once, so a stored name is found under every spelling of it. */
  lemma NormaliseTwice(username: string)
    ensures Normalise(Normalise(username)) == Normalise(username)
  {
    NormaliseMakesNormal(username);
    NormalStays(Normalise(username));
  }

  predicate Taken(users: map<UserId, User>, name: string) {
    exists id | id in users :: users[id].username == name
  }

  // ----- Operations ---------------------------------------------------------------------

  datatype Refusal = BlankUsername | BlankPassword | Duplicate | SetupClosed | UnknownUser | LastActiveAdmin
      | BadCredentials | TokenTaken

  type Outcome = Result<State, Refusal>

  function Create(s: State, username: string, role: Role, password: string): Outcome {
    var name := Normalise(username);
    if name == "" then Failure(BlankUsername)
    else if Taken(s.users, Normalise(name)) then Failure(Duplicate)
    else if password == "" then Failure(BlankPassword)
    else Success(s.(users := s.users[s.nextId := User(name, role, Active, password)], nextId := s.nextId + 1))
  }

  /** First-run setup, under its lock. */
  function Setup(s: State, username: string, password: string): Outcome {
    if s.users != map[] then Failure(SetupClosed) else Create(s, username, Admin, password)
  }

  predicate IsActiveAdmin(u: User) {
    u.role.Admin? && u.status.Active?
  }

  function ActiveAdmins(users: map<UserId, User>): set<UserId> {
    set id | id in users && IsActiveAdmin(users[id])
  }

  function SessionsRevoked(sessions: map<Token, WebSession>, id: UserId): map<Token, WebSession> {
    map t | t in sessions :: if sessions[t].user == id then sessions[t].(revoked := true) else sessions[t]
  }

  function Changed(u: User, role: Option<Role>, password: Option<string>, status: Option<Status>): User {
    User(u.username, if role.Some? then role.value else u.role, if status.Some? then status.value else u.status,
         if password.Some? then password.value else u.password)
  }

  predicate Ends(status: Option<Status>) {
    status == Some(Inactive) || status == Some(Deleted)
  }

  function Update(s: State, id: UserId, role: Option<Role>, password: Option<string>, status: Option<Status>): Outcome {
    if id !in s.users then Failure(UnknownUser)
    else if IsActiveAdmin(s.users[id]) && (role == Some(Regular) || Ends(status)) && |ActiveAdmins(s.users)| <= 1 then Failure(LastActiveAdmin)
    else if password == Some("") then Failure(BlankPassword)
    else Success(s.(users := s.users[id := Changed(s.users[id], role, password, status)],
                    sessions := if Ends(status) then SessionsRevoked(s.sessions, id) else s.sessions))
  }

  function Delete(s: State, id: UserId): Outcome {
    if id !in s.users then Failure(UnknownUser)
    else if IsActiveAdmin(s.users[id]) && |ActiveAdmins(s.users)| <= 1 then Failure(LastActiveAdmin)
    else Success(s.(users := s.users[id := s.users[id].(status := Deleted)], sessions := SessionsRevoked(s.sessions, id)))
  }

  predicate Matches(u: User, username: string, password: string) {
    u.username == Normalise(username) && u.status.Active? && u.password == password
  }

  /** A session under a fresh random token, for any user. */
  function OpenSession(s: State, id: UserId, token: Token, expiresAt: int): Outcome {
    if id !in s.users then Failure(UnknownUser)
    else if token in s.sessions then Failure(TokenTaken)
    else Success(s.(sessions := s.sessions[token := WebSession(id, expiresAt, false)]))
  }

  /** Authentication and the new session in one transaction. */
  function Login(s: State, id: UserId, username: string, password: string, token: Token, expiresAt: int): Outcome {
    if Normalise(username) == "" then Failure(BlankUsername)
    else if id !in s.users || !Matches(s.users[id], username, password) then Failure(BadCredentials)
    else OpenSession(s, id, token, expiresAt)
  }

  function Revoke(s: State, token: Token): Outcome {
    if token !in s.sessions then Success(s)
    else Success(s.(sessions := s.sessions[token := s.sessions[token].(revoked := true)]))
  }

  /** The user a token is accepted for at time `now`. */
  function Accepted(s: State, token: Token, now: int): Option<UserId> {
    if token !in s.sessions then None
    else
      var w := s.sessions[token];
      if w.revoked || w.expiresAt <= now || w.user !in s.users || !s.users[w.user].status.Active? then None else Some(w.user)
  }

  // ----- Runs ---------------------------------------------------------------------------

  datatype Step =
    | DoSetup(username: string, password: string)
    | DoCreate(username: string, role: Role, password: string)
    | DoUpdate(id: UserId, newRole: Option<Role>, newPassword: Option<string>, newStatus: Option<Status>)
    | DoDelete(id: UserId)
    | DoLogin(id: UserId, username: string, password: string, token: Token, expiresAt: int)
    | DoRevoke(token: Token)

  function Apply(s: State, step: Step): Outcome {
    match step
    case DoSetup(username, password) => Setup(s, username, password)
    case DoCreate(username, role, password) => Create(s, username, role, password)
    case DoUpdate(id, role, password, status) => Update(s, id, role, password, status)
    case DoDelete(id) => Delete(s, id)
    case DoLogin(id, username, password, token, expiresAt) => Login(s, id, username, password, token, expiresAt)
    case DoRevoke(token) => Revoke(s, token)
  }

  function Next(s: State, step: Step): State {
    var o := Apply(s, step);
    if o.Success? then o.value else s
  }

  function Run(s: State, steps: seq<Step>): State
    decreases steps
  {
    if steps == [] then s else Run(Next(s, steps[0]), steps[1..])
  }

  /** Names are normalised and unique, ids were handed out, sessions belong to users. */
  ghost predicate Named(s: State) {
    && (forall id | id in s.users :: id < s.nextId && IsNormal(s.users[id].username))
    && (forall a, b | a in s.users && b in s.users && a != b :: s.users[a].username != s.users[b].username)
  }

  /** Whoever is not active has no session that was not revoked. */
  ghost predicate SignedOut(s: State) {
    forall t | t in s.sessions ::
      s.sessions[t].user in s.users && (s.users[s.sessions[t].user].status.Active? || s.sessions[t].revoked)
  }

  ghost predicate Administered(s: State) {
    exists id | id in s.users :: IsActiveAdmin(s.users[id])
  }

  ghost predicate Good(s: State) {
    Named(s) && SignedOut(s) && Administered(s)
  }

  // ----- The last administrator ---------------------------------------------------------

  /** An active administrator is the last one exactly when no other one is left. */
  lemma LastMeansNoOther(users: map<UserId, User>, id: UserId)
    requires id in users && IsActiveAdmin(users[id])
    ensures |ActiveAdmins(users)| <= 1 <==> forall other | other in users && other != id :: !IsActiveAdmin(users[other])
  {
    var admins := ActiveAdmins(users);
    assert id in admins;
    var others := admins - {id};
    assert |others| == |admins| - 1;
    if others != {} {
      var other :| other in others;
      assert other in users && IsActiveAdmin(users[other]) && other != id;
    } else {
      assert forall other | other in users && other != id :: other in admins ==> other in others;
    }
  }

  /** A change is refused for the sake of the last administrator exactly when it would leave none. */
  lemma UpdateRefusedIff(s: State, id: UserId, role: Option<Role>, password: Option<string>, status: Option<Status>)
    requires Administered(s) && id in s.users
    ensures Update(s, id, role, password, status) == Failure(LastActiveAdmin)
       <==> !Administered(s.(users := s.users[id := Changed(s.users[id], role, password, status)]))
  {
    var u, u' := s.users[id], Changed(s.users[id], role, password, status);
    var after := s.users[id := u'];
    if IsActiveAdmin(u) { LastMeansNoOther(s.users, id); }
    var admin :| admin in s.users && IsActiveAdmin(s.users[admin]);
    if IsActiveAdmin(u') {
      assert id in after && IsActiveAdmin(after[id]);
    } else if !IsActiveAdmin(u) {
      assert admin in after && IsActiveAdmin(after[admin]);
    } else {
      assert forall other | other in s.users && other != id :: other in after && after[other] == s.users[other];
    }
  }

  lemma DeleteRefusedIff(s: State, id: UserId)
    requires Administered(s) && id in s.users
    ensures Delete(s, id) == Failure(LastActiveAdmin)
       <==> !Administered(s.(users := s.users[id := s.users[id].(status := Deleted)]))
  {
    UpdateRefusedIff(s, id, None, None, Some(Deleted));
    assert Changed(s.users[id], None, None, Some(Deleted)) == s.users[id].(status := Deleted);
  }

  // ----- The invariant over runs --------------------------------------------------------

  lemma Creates(s: State, username: string, role: Role, password: string)
    requires Create(s, username, role, password).Success?
    ensures var name := Normalise(username);
            && IsNormal(name) && !Taken(s.users, name)
            && Create(s, username, role, password).value
            == s.(users := s.users[s.nextId := User(name, role, Active, password)], nextId := s.nextId + 1)
  {
    NormaliseMakesNormal(username);
    NormalStays(Normalise(username));
  }

  lemma AddedKeepsNames(s: State, u: User)
    requires Named(s) && IsNormal(u.username) && !Taken(s.users, u.username)
    ensures Named(s.(users := s.users[s.nextId := u], nextId := s.nextId + 1))
  {}

  lemma AddedKeepsGood(s: State, u: User)
    requires Good(s) && IsNormal(u.username) && !Taken(s.users, u.username)
    ensures Good(s.(users := s.users[s.nextId := u], nextId := s.nextId + 1))
  {
    var after := s.(users := s.users[s.nextId := u], nextId := s.nextId + 1);
    AddedKeepsNames(s, u);
    assert s.nextId !in s.users;
    var admin :| admin in s.users && IsActiveAdmin(s.users[admin]);
    assert admin in after.users && after.users[admin] == s.users[admin];
    assert SignedOut(after);
  }

  lemma CreateKeepsGood(s: State, username: string, role: Role, password: string)
    requires Good(s) && Create(s, username, role, password).Success?
    ensures Good(Create(s, username, role, password).value)
  {
    Creates(s, username, role, password);
    AddedKeepsGood(s, User(Normalise(username), role, Active, password));
  }

  lemma ChangedKeepsNames(s: State, id: UserId, u: User, sessions: map<Token, WebSession>)
    requires Named(s) && id in s.users && u.username == s.users[id].username
    ensures Named(s.(users := s.users[id := u], sessions := sessions))
  {}

  /** Changing a user without the name, and signing the user out if no longer active. */
  lemma ChangedKeepsGood(s: State, id: UserId, u: User, sessions: map<Token, WebSession>)
    requires Good(s) && id in s.users && u.username == s.users[id].username
    requires Administered(s.(users := s.users[id := u]))
    requires if u.status.Active? then sessions == s.sessions || sessions == SessionsRevoked(s.sessions, id)
             else sessions == SessionsRevoked(s.sessions, id) || (sessions == s.sessions && !s.users[id].status.Active?)
    ensures Good(s.(users := s.users[id := u], sessions := sessions))
  {
    var after := s.(users := s.users[id := u], sessions := sessions);
    ChangedKeepsNames(s, id, u, sessions);
    assert after.users == s.(users := s.users[id := u]).users;
    forall t | t in sessions
      ensures sessions[t].user in after.users && (after.users[sessions[t].user].status.Active? || sessions[t].revoked)
    {
      assert t in s.sessions;
    }
  }

  lemma Updates(s: State, id: UserId, role: Option<Role>, password: Option<string>, status: Option<Status>)
    requires Update(s, id, role, password, status).Success?
    ensures id in s.users && Update(s, id, role, password, status) != Failure(LastActiveAdmin)
    ensures Update(s, id, role, password, status).value
         == s.(users := s.users[id := Changed(s.users[id], role, password, status)],
               sessions := if Ends(status) then SessionsRevoked(s.sessions, id) else s.sessions)
  {}

  lemma UpdateKeepsGood(s: State, id: UserId, role: Option<Role>, password: Option<string>, status: Option<Status>)
    requires Good(s) && Update(s, id, role, password, status).Success?
    ensures Good(Update(s, id, role, password, status).value)
  {
    Updates(s, id, role, password, status);
    UpdateRefusedIff(s, id, role, password, status);
    var u := Changed(s.users[id], role, password, status);
    var sessions := if Ends(status) then SessionsRevoked(s.sessions, id) else s.sessions;
    assert u.username == s.users[id].username && (!u.status.Active? && !Ends(status) ==> !s.users[id].status.Active?);
    ChangedKeepsGood(s, id, u, sessions);
  }

  lemma DeleteIsUpdate(s: State, id: UserId)
    ensures Delete(s, id) == Update(s, id, None, None, Some(Deleted))
  {}

  lemma LoginOpens(s: State, id: UserId, username: string, password: string, token: Token, expiresAt: int)
    requires Login(s, id, username, password, token, expiresAt).Success?
    ensures id in s.users && s.users[id].status.Active? && token !in s.sessions
    ensures Login(s, id, username, password, token, expiresAt).value == s.(sessions := s.sessions[token := WebSession(id, expiresAt, false)])
  {}

  lemma LoginKeepsGood(s: State, id: UserId, username: string, password: string, token: Token, expiresAt: int)
    requires Good(s) && Login(s, id, username, password, token, expiresAt).Success?
    ensures Good(Login(s, id, username, password, token, expiresAt).value)
  {
    LoginOpens(s, id, username, password, token, expiresAt);
    SessionAddedKeepsGood(s, id, token, expiresAt);
  }

  lemma SessionAddedKeepsGood(s: State, id: UserId, token: Token, expiresAt: int)
    requires Good(s) && id in s.users && token !in s.sessions
    ensures Good(s.(sessions := s.sessions[token := WebSession(id, expiresAt, false)])) <==> s.users[id].status.Active?
  {
    var after := s.(sessions := s.sessions[token := WebSession(id, expiresAt, false)]);
    assert token in after.sessions && after.sessions[token] == WebSession(id, expiresAt, false);
    assert after.users == s.users;
    assert Named(after) && Administered(after);
  }

  lemma RevokeKeepsGood(s: State, token: Token)
    requires Good(s)
    ensures Good(Revoke(s, token).value)
  {
    var after := Revoke(s, token).value;
    assert after.users == s.users && after.nextId == s.nextId;
    assert Named(after) && Administered(after);
  }

  /** Operations on users, then those on sessions. */
  lemma StepKeepsGood(s: State, step: Step)
    requires Good(s)
    ensures Good(Next(s, step))
  {
    match step
    case DoSetup(username, password) => SetupIsClosed(s, username, password);
    case DoCreate(username, role, password) =>
      if Create(s, username, role, password).Success? { CreateKeepsGood(s, username, role, password); }
    case DoUpdate(id, role, password, status) =>
      if Update(s, id, role, password, status).Success? { UpdateKeepsGood(s, id, role, password, status); }
    case DoDelete(id) =>
      DeleteIsUpdate(s, id);
      if Delete(s, id).Success? { UpdateKeepsGood(s, id, None, None, Some(Deleted)); }
    case DoLogin(id, username, password, token, expiresAt) =>
      if Login(s, id, username, password, token, expiresAt).Success? { LoginKeepsGood(s, id, username, password, token, expiresAt); }
    case DoRevoke(token) => RevokeKeepsGood(s, token);
  }

  lemma SetupIsClosed(s: State, username: string, password: string)
    requires Administered(s)
    ensures Setup(s, username, password) == Failure(SetupClosed)
  {}

  lemma {:induction false} RunKeepsGood(s: State, steps: seq<Step>)
    requires Good(s)
    ensures Good(Run(s, steps))
    decreases steps
  {
    if steps != [] {
      StepKeepsGood(s, steps[0]);
      RunKeepsGood(Next(s, steps[0]), steps[1..]);
    }
  }

  lemma SetupIsGood(username: string, password: string)
    requires Setup(INIT, username, password).Success?
    ensures Good(Setup(INIT, username, password).value)
  {
    Creates(INIT, username, Admin, password);
    var after := Setup(INIT, username, password).value;
    assert 0 in after.users && IsActiveAdmin(after.users[0]);
  }

  /**
   * Main theorem: after setup, over every run of operations, an active administrator exists,
   * setup stays closed, usernames stay unique, and whoever is not active is signed out.
   */
  lemma {:induction false} AfterSetup(username: string, password: string, steps: seq<Step>)
    requires Setup(INIT, username, password).Success?
    ensures var s := Run(Setup(INIT, username, password).value, steps);
            && Good(s)
            && (forall u, p :: Setup(s, u, p) == Failure(SetupClosed))
  {
    SetupIsGood(username, password);
    RunKeepsGood(Setup(INIT, username, password).value, steps);
    var s := Run(Setup(INIT, username, password).value, steps);
    forall u, p ensures Setup(s, u, p) == Failure(SetupClosed) { SetupIsClosed(s, u, p); }
  }

  // ----- Tokens -------------------------------------------------------------------------

  ghost predicate Spent(s: State, token: Token) {
    token in s.sessions && s.sessions[token].revoked
  }

  /** No operation forgets a session, moves it to another user, prolongs it or takes back its revocation. */
  lemma SessionsStay(s: State, step: Step, token: Token)
    requires token in s.sessions
    ensures var t := Next(s, step);
            && token in t.sessions && t.sessions[token].user == s.sessions[token].user
            && t.sessions[token].expiresAt == s.sessions[token].expiresAt
            && (s.sessions[token].revoked ==> t.sessions[token].revoked)
  {
    match step
    case DoSetup(username, password) =>
      if Create(s, username, Admin, password).Success? { Creates(s, username, Admin, password); }
    case DoCreate(username, role, password) =>
      if Create(s, username, role, password).Success? { Creates(s, username, role, password); }
    case DoLogin(id, username, password, newToken, expiresAt) =>
      if Login(s, id, username, password, newToken, expiresAt).Success? { LoginOpens(s, id, username, password, newToken, expiresAt); }
    case _ =>
  }

  lemma {:induction false} RevokedForever(s: State, steps: seq<Step>, token: Token)
    requires Spent(s, token)
    ensures Spent(Run(s, steps), token)
    decreases steps
  {
    if steps != [] {
      SessionsStay(s, steps[0], token);
      RevokedForever(Next(s, steps[0]), steps[1..], token);
    }
  }

  lemma RevokeSpends(s: State, token: Token)
    requires token in s.sessions
    ensures Spent(Next(s, DoRevoke(token)), token)
  {}

  /** Signing out, or being made inactive or deleted, ends a session for good, even if the user is reactivated. */
  lemma {:induction false} SignedOutForGood(s: State, step: Step, later: seq<Step>, token: Token, now: int)
    requires Good(s) && token in s.sessions
    requires || step == DoRevoke(token)
             || Spent(s, token)
             || (var users := Next(s, step).users; var id := s.sessions[token].user; id in users && !users[id].status.Active?)
    ensures Accepted(Run(Next(s, step), later), token, now).None?
  {
    StepKeepsGood(s, step);
    SessionsStay(s, step, token);
    if step == DoRevoke(token) { RevokeSpends(s, token); }
    RevokedForever(Next(s, step), later, token);
  }

  lemma {:induction false} ExpiryStays(s: State, steps: seq<Step>, token: Token)
    requires token in s.sessions
    ensures var t := Run(s, steps);
            && token in t.sessions && t.sessions[token].user == s.sessions[token].user
            && t.sessions[token].expiresAt == s.sessions[token].expiresAt
    decreases steps
  {
    if steps != [] {
      SessionsStay(s, steps[0], token);
      ExpiryStays(Next(s, steps[0]), steps[1..], token);
    }
  }

  /** Whatever happens later, a session is accepted for nobody but its user, and never once it has expired. */
  lemma ExpiredForGood(s: State, id: UserId, username: string, password: string, token: Token, expiresAt: int,
      later: seq<Step>, now: int)
    requires Login(s, id, username, password, token, expiresAt).Success?
    ensures var t := Run(Login(s, id, username, password, token, expiresAt).value, later);
            && (expiresAt <= now ==> Accepted(t, token, now).None?)
            && (Accepted(t, token, now).Some? ==> Accepted(t, token, now) == Some(id))
  {
    LoginOpens(s, id, username, password, token, expiresAt);
    ExpiryStays(Login(s, id, username, password, token, expiresAt).value, later, token);
  }

  /**
   * A session opened for a user keeps the invariant exactly when the user is active at that
   * moment: authentication and the session must not be separated by a deactivation.
   */
  lemma OpenSessionKeepsIff(s: State, id: UserId, token: Token, expiresAt: int)
    requires Good(s) && OpenSession(s, id, token, expiresAt).Success?
    ensures Good(OpenSession(s, id, token, expiresAt).value) <==> s.users[id].status.Active?
  {
    SessionAddedKeepsGood(s, id, token, expiresAt);
  }

  lemma LoginSucceeds(s: State, id: UserId, username: string, password: string, token: Token, now: int, expiresAt: int)
    requires Normalise(username) != "" && id in s.users && Matches(s.users[id], username, password)
    requires token !in s.sessions && now < expiresAt
    ensures Login(s, id, username, password, token, expiresAt).Success?
    ensures Accepted(Login(s, id, username, password, token, expiresAt).value, token, now) == Some(id)
  {}

  /** A new user can sign in under every spelling of the name. */
  lemma {:induction false} CreatedCanLogin(s: State, username: string, spelling: string, role: Role,
      password: string, token: Token, now: int, expiresAt: int)
    requires Create(s, username, role, password).Success? && Normalise(spelling) == Normalise(username)
    requires token !in s.sessions && now < expiresAt
    ensures var login := Login(Create(s, username, role, password).value, s.nextId, spelling, password, token, expiresAt);
            login.Success? && Accepted(login.value, token, now) == Some(s.nextId)
  {
    Creates(s, username, role, password);
    assert Normalise(username) != "";
    LoginSucceeds(Create(s, username, role, password).value, s.nextId, spelling, password, token, now, expiresAt);
  }

  /**
   * An accepted change takes effect: what was asked for holds from then on, what was not stays,
   * and no other user changes. A reactivated user can sign in again, but old sessions stay revoked.
   */
  lemma UpdateTakesEffect(s: State, id: UserId, role: Option<Role>, password: Option<string>, status: Option<Status>)
    requires Update(s, id, role, password, status).Success?
    ensures var t := Update(s, id, role, password, status).value; var u := t.users[id];
            && t.users.Keys == s.users.Keys && t.nextId == s.nextId
            && (forall other | other in s.users && other != id :: t.users[other] == s.users[other])
            && u.username == s.users[id].username
            && (if role.Some? then u.role == role.value else u.role == s.users[id].role)
            && (if status.Some? then u.status == status.value else u.status == s.users[id].status)
            && (if password.Some? then u.password == password.value && u.password != "" else u.password == s.users[id].password)
            && t.sessions.Keys == s.sessions.Keys
            && (forall token | token in s.sessions ::
                  t.sessions[token].revoked
                  <==> s.sessions[token].revoked
                       || (s.sessions[token].user == id && (status == Some(Inactive) || status == Some(Deleted))))
  {}

  /** A deleted user stays on record, without any session that was not revoked. */
  lemma DeleteTakesEffect(s: State, id: UserId)
    requires Delete(s, id).Success?
    ensures var t := Delete(s, id).value;
            && id in s.users && t.users == s.users[id := s.users[id].(status := Deleted)] && t.nextId == s.nextId
            && t.sessions.Keys == s.sessions.Keys
            && (forall token | token in s.sessions && s.sessions[token].user == id :: t.sessions[token].revoked)
            && (forall token | token in s.sessions && s.sessions[token].user != id :: t.sessions[token] == s.sessions[token])
  {}

  lemma NormaliseOfBlank(username: string)
    ensures Normalise(username) == "" <==> Blank(username)
  {
    assert |Normalise(username)| == |Strip(username)|;
  }

  lemma TakenIff(s: State, username: string)
    requires Named(s)
    ensures Taken(s.users, Normalise(Normalise(username)))
       <==> exists id | id in s.users :: Normalise(s.users[id].username) == Normalise(username)
  {
    NormaliseTwice(username);
    forall id | id in s.users ensures Normalise(s.users[id].username) == s.users[id].username {
      NormalStays(s.users[id].username);
    }
  }

  /** A new user is refused exactly for a blank name, a name that is taken in any spelling, or an empty password. */
  lemma CreateAcceptedIff(s: State, username: string, role: Role, password: string)
    requires Named(s)
    ensures Create(s, username, role, password).Success?
       <==> && !Blank(username) && password != ""
            && !(exists id | id in s.users :: Normalise(s.users[id].username) == Normalise(username))
  {
    NormaliseOfBlank(username);
    TakenIff(s, username);
  }

  /** A change is accepted exactly for a known user, without an empty password, if an active administrator is left. */
  lemma UpdateAcceptedIff(s: State, id: UserId, role: Option<Role>, password: Option<string>, status: Option<Status>)
    requires Administered(s)
    ensures Update(s, id, role, password, status).Success?
       <==> && id in s.users && password != Some("")
            && Administered(s.(users := s.users[id := Changed(s.users[id], role, password, status)]))
  {
    if id in s.users { UpdateRefusedIff(s, id, role, password, status); }
  }

  lemma DeleteAcceptedIff(s: State, id: UserId)
    requires Administered(s)
    ensures Delete(s, id).Success?
       <==> id in s.users && Administered(s.(users := s.users[id := s.users[id].(status := Deleted)]))
  {
    if id in s.users { DeleteRefusedIff(s, id); }
  }

  /** One name and password sign in one user only: the active one of that name. */
  lemma SignsInOnlyItself(s: State, id: UserId, username: string, password: string, token: Token, expiresAt: int)
    requires Named(s) && Login(s, id, username, password, token, expiresAt).Success?
    ensures && id in s.users && s.users[id].username == Lower(Strip(username)) && s.users[id].password == password
            && s.users[id].status.Active?
            && forall other | other != id :: Login(s, other, username, password, token, expiresAt) == Failure(BadCredentials)
  {}

  lemma ReactivatedSignsIn(s: State, id: UserId, spelling: string, token: Token, now: int, expiresAt: int)
    requires Update(s, id, None, None, Some(Active)).Success? && Normalise(spelling) == s.users[id].username
    requires s.users[id].username != "" && token !in s.sessions && now < expiresAt
    ensures var login := Login(Next(s, DoUpdate(id, None, None, Some(Active))), id, spelling, s.users[id].password, token, expiresAt);
            login.Success? && Accepted(login.value, token, now) == Some(id)
  {
    Updates(s, id, None, None, Some(Active));
    LoginSucceeds(Next(s, DoUpdate(id, None, None, Some(Active))), id, spelling, s.users[id].password, token, now, expiresAt);
  }

  /** No user without a name or a password, over every run. */
  ghost predicate Credentialed(s: State) {
    forall id | id in s.users :: s.users[id].username != "" && s.users[id].password != ""
  }

  lemma CreateKeepsCredentials(s: State, username: string, role: Role, password: string)
    requires Credentialed(s) && Create(s, username, role, password).Success?
    ensures Credentialed(Create(s, username, role, password).value)
  {
    Creates(s, username, role, password);
  }

  lemma UpdateKeepsCredentials(s: State, id: UserId, role: Option<Role>, password: Option<string>, status: Option<Status>)
    requires Credentialed(s) && Update(s, id, role, password, status).Success?
    ensures Credentialed(Update(s, id, role, password, status).value)
  {
    Updates(s, id, role, password, status);
  }

  lemma StepKeepsCredentials(s: State, step: Step)
    requires Credentialed(s)
    ensures Credentialed(Next(s, step))
  {
    match step
    case DoSetup(username, password) =>
      if Setup(s, username, password).Success? { CreateKeepsCredentials(s, username, Admin, password); }
    case DoCreate(username, role, password) =>
      if Create(s, username, role, password).Success? { CreateKeepsCredentials(s, username, role, password); }
    case DoUpdate(id, role, password, status) =>
      if Update(s, id, role, password, status).Success? { UpdateKeepsCredentials(s, id, role, password, status); }
    case DoDelete(id) =>
      DeleteIsUpdate(s, id);
      if Delete(s, id).Success? { UpdateKeepsCredentials(s, id, None, None, Some(Deleted)); }
    case _ =>
      assert Next(s, step).users == s.users;
  }

  lemma {:induction false} RunKeepsCredentials(s: State, steps: seq<Step>)
    requires Credentialed(s)
    ensures Credentialed(Run(s, steps))
    decreases steps
  {
    if steps != [] {
      StepKeepsCredentials(s, steps[0]);
      RunKeepsCredentials(Next(s, steps[0]), steps[1..]);
    }
  }

  /** After a change of password exactly the new one signs in. */
  lemma NewPasswordSignsIn(s: State, id: UserId, role: Option<Role>, password: string, status: Option<Status>,
      tried: string, token: Token, expiresAt: int)
    requires Named(s) && Update(s, id, role, Some(password), status).Success? && s.users[id].username != ""
    requires Changed(s.users[id], role, Some(password), status).status.Active? && token !in s.sessions
    ensures Login(Update(s, id, role, Some(password), status).value, id, s.users[id].username, tried, token, expiresAt).Success?
       <==> tried == password
  {
    Updates(s, id, role, Some(password), status);
    NormalStays(s.users[id].username);
  }

  // ----- The tables in place ------------------------------------------------------------

  class UserStore {
    var users: map<UserId, User>
    var sessions: map<Token, WebSession>
    var nextId: UserId

    constructor ()
      ensures View() == INIT
    {
      users, sessions, nextId := map[], map[], 0;
    }

    ghost function View(): State
      reads this
    {
      State(users, sessions, nextId)
    }

    /** Refused without any change, or the whole transition. */
    ghost predicate Did(before: State, step: Step, refusal: Option<Refusal>)
      reads this
    {
      match Apply(before, step)
      case Success(after) => refusal.None? && View() == after
      case Failure(e) => refusal == Some(e) && View() == before
    }

    method CreateUser(username: string, role: Role, password: string) returns (refusal: Option<Refusal>)
      modifies this
      ensures Did(old(View()), DoCreate(username, role, password), refusal)
    {
      var name := Normalise(username);
      if name == "" { return Some(BlankUsername); }
      if Taken(users, Normalise(name)) { return Some(Duplicate); }
      if password == "" { return Some(BlankPassword); }
      users := users[nextId := User(name, role, Active, password)];
      nextId := nextId + 1;
      return None;
    }

    method CreateFirstGm(username: string, password: string) returns (refusal: Option<Refusal>)
      modifies this
      ensures Did(old(View()), DoSetup(username, password), refusal)
    {
      if users != map[] { return Some(SetupClosed); }
      refusal := CreateUser(username, Admin, password);
    }

    method CountActiveAdmins() returns (n: nat)
      ensures n == |ActiveAdmins(users)|
    {
      n := 0;
      var todo := users.Keys;
      ghost var counted: set<UserId> := {};
      while todo != {}
        invariant todo <= users.Keys && n == |counted|
        invariant counted == set id | id in users && id !in todo && IsActiveAdmin(users[id])
        decreases todo
      {
        var id :| id in todo;
        todo := todo - {id};
        if IsActiveAdmin(users[id]) {
          counted := counted + {id};
          n := n + 1;
        }
      }
      assert counted == ActiveAdmins(users);
    }

    method RevokeUserSessions(id: UserId)
      modifies this`sessions
      ensures sessions == SessionsRevoked(old(sessions), id)
    {
      var before := sessions;
      var todo := before.Keys;
      while todo != {}
        invariant todo <= before.Keys && sessions.Keys == before.Keys
        invariant forall t | t in before ::
                    sessions[t] == if t !in todo && before[t].user == id then before[t].(revoked := true) else before[t]
        decreases todo
      {
        var t :| t in todo;
        todo := todo - {t};
        if before[t].user == id && !before[t].revoked {
          sessions := sessions[t := before[t].(revoked := true)];
        }
      }
      assert sessions == SessionsRevoked(before, id);
    }

    method UpdateUser(id: UserId, role: Option<Role>, password: Option<string>, status: Option<Status>)
      returns (refusal: Option<Refusal>)
      modifies this
      ensures Did(old(View()), DoUpdate(id, role, password, status), refusal)
    {
      if id !in users { return Some(UnknownUser); }
      var user := users[id];
      if IsActiveAdmin(user) && (role == Some(Regular) || Ends(status)) {
        var n := CountActiveAdmins();
        if n <= 1 { return Some(LastActiveAdmin); }
      }
      if password == Some("") { return Some(BlankPassword); }
      if role.Some? { user := user.(role := role.value); }
      if password.Some? { user := user.(password := password.value); }
      if status.Some? { user := user.(status := status.value); }
      users := users[id := user];
      if Ends(status) { RevokeUserSessions(id); }
      return None;
    }

    method DeleteUser(id: UserId) returns (refusal: Option<Refusal>)
      modifies this
      ensures Did(old(View()), DoDelete(id), refusal)
    {
      if id !in users { return Some(UnknownUser); }
      var user := users[id];
      if IsActiveAdmin(user) {
        var n := CountActiveAdmins();
        if n <= 1 { return Some(LastActiveAdmin); }
      }
      users := users[id := user.(status := Deleted)];
      RevokeUserSessions(id);
      return None;
    }

    /** The active user of this name and password, if there is one. */
    method Authenticate(username: string, password: string) returns (found: Option<UserId>)
      ensures found.Some? ==> found.value in users && Matches(users[found.value], username, password)
      ensures found.None? ==> forall id | id in users :: !Matches(users[id], username, password)
    {
      var todo := users.Keys;
      while todo != {}
        invariant todo <= users.Keys
        invariant forall id | id in users && id !in todo :: !Matches(users[id], username, password)
        decreases todo
      {
        var id :| id in todo;
        todo := todo - {id};
        if Matches(users[id], username, password) { return Some(id); }
      }
      return None;
    }

    method SignIn(username: string, password: string, token: Token, expiresAt: int) returns (r: Result<UserId, Refusal>)
      modifies this
      ensures r.Success? ==> Login(old(View()), r.value, username, password, token, expiresAt) == Success(View())
      ensures r.Failure? ==> View() == old(View()) && forall id :: Login(old(View()), id, username, password, token, expiresAt).Failure?
    {
      if Normalise(username) == "" { return Failure(BlankUsername); }
      var found := Authenticate(username, password);
      if found.None? { return Failure(BadCredentials); }
      if token in sessions { return Failure(TokenTaken); }
      sessions := sessions[token := WebSession(found.value, expiresAt, false)];
      return Success(found.value);
    }

    method ValidateWebSession(token: Token, now: int) returns (user: Option<UserId>)
      ensures user == Accepted(View(), token, now)
      ensures user.Some? <==> && token in sessions && !sessions[token].revoked && now < sessions[token].expiresAt
                              && sessions[token].user in users && users[sessions[token].user].status.Active?
      ensures user.Some? ==> user.value == sessions[token].user
    {
      if token !in sessions { return None; }
      var w := sessions[token];
      if w.revoked || w.expiresAt <= now || w.user !in users || !users[w.user].status.Active? { return None; }
      return Some(w.user);
    }

    method RevokeWebSession(token: Token) returns (refusal: Option<Refusal>)
      modifies this
      ensures Did(old(View()), DoRevoke(token), refusal)
    {
      if token in sessions && !sessions[token].revoked {
        sessions := sessions[token := sessions[token].(revoked := true)];
      }
      assert token in sessions ==> sessions[token].(revoked := true) == sessions[token];
      return None;
    }
  }
}
