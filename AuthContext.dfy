/**
 * The session store behind every page: who is signed in, their learning progress, and the
 * two persisted entries `user` and `authToken`. It sits in front of a deterministic mock
 * of the authentication service.
 *
 * JSON.stringify/JSON.parse of the user record are modelled as storing the record itself;
 * the service's delay is modelled as immediate; `Date.now()` is the parameter `now`; a
 * `fault` parameter stands for the service call itself failing (the `catch` paths).
 */
module AuthContext {
  import opened Wrappers
  import opened Text

  /** The signed-in learner as the provider holds it. */
  datatype User = User(
    id: int,
    name: string,
    email: string,
    avatar: Option<string>,
    learningProgress: int,
    completedLessons: seq<string>)

  /** A persisted value: plain text, or a user record written through JSON.stringify. */
  datatype Entry = Str(s: string) | UserRecord(user: User)

  /**
   * What `JSON.parse` makes of a stored text that the app did not write as a user record:
   * a syntax error (it throws), `null`, or some other JSON value such as `{}` or `42`.
   */
  datatype Parsed = Malformed | ParsedNull | ParsedOther

  /** JavaScript truthiness of a stored string; a stringified object is never empty. */
  predicate Truthy(e: Entry)
  {
    e.UserRecord? || e.s != ""
  }

  /** The entry under `key` is there and truthy. */
  predicate Present(entries: map<string, Entry>, key: string)
  {
    key in entries && Truthy(entries[key])
  }

  /** The browser's key-value store (`localStorage`). */
  class Storage {
    var entries: map<string, Entry>

    constructor(initial: map<string, Entry>)
      ensures entries == initial
    {
      entries := initial;
    }

    method SetItem(key: string, value: Entry)
      modifies this
      ensures entries == old(entries)[key := value]
    {
      entries := entries[key := value];
    }

    method RemoveItem(key: string)
      modifies this
      ensures entries == old(entries) - {key}
    {
      entries := entries - {key};
    }
  }

  // ---------------------------------------------------------------------------
  // The mock authentication service

  /** The user object in a login response; the optional fields may be omitted. */
  datatype ResponseUser = ResponseUser(
    id: int,
    name: string,
    email: string,
    avatar: Option<string>,
    learningProgress: Option<int>,
    completedLessons: Option<seq<string>>)

  /** A call to the service: `simulateApiCall` with its endpoint and body. */
  datatype Request = LoginRequest(email: string, password: string) | SignupRequest(name: string, email: string, password: string)

  datatype LoginResponse = LoginGranted(user: ResponseUser, token: string) | LoginRefused(error: string)

  datatype SignupResponse = SignupGranted(message: string) | SignupRefused(error: string)

  const InvalidCredentials := "Invalid credentials"
  const MissingFields := "Missing required fields"
  const AccountCreated := "Account created successfully!"

  /** The token the mock issues at time `now`. */
  function SessionToken(now: nat): (t: string)
    ensures t != ""
  {
    "demo-jwt-token-" + NatToString(now)
  }

  /** `simulateApiCall('/api/auth/login', …)`: any non-empty e-mail and password are accepted. */
  function SimulateLogin(email: string, password: string, now: nat): (r: LoginResponse)
    ensures r.LoginGranted? <==> email != "" && password != ""
    ensures r.LoginGranted? ==> r.user.email == email && r.token == SessionToken(now)
    ensures r.LoginRefused? ==> r.error == InvalidCredentials
  {
    if email != "" && password != "" then
      LoginGranted(ResponseUser(1, "Demo User", email, None, Some(25), Some(["lesson1", "lesson2"])), SessionToken(now))
    else
      LoginRefused(InvalidCredentials)
  }

  /** `simulateApiCall('/api/auth/signup', …)`: succeeds when all three fields are non-empty. */
  function SimulateSignup(name: string, email: string, password: string): (r: SignupResponse)
    ensures r.SignupGranted? <==> name != "" && email != "" && password != ""
    ensures r.SignupGranted? ==> r.message == AccountCreated
    ensures r.SignupRefused? ==> r.error == MissingFields
  {
    if name != "" && email != "" && password != "" then SignupGranted(AccountCreated)
    else SignupRefused(MissingFields)
  }

  // ---------------------------------------------------------------------------
  // Records and results

  /**
   * The record `login` builds from a response: the identity fields are copied, and an
   * omitted (or falsy) avatar, progress or lesson list falls back to null, 0 and [].
   */
  function BuildUser(ru: ResponseUser): (u: User)
    ensures u.id == ru.id && u.name == ru.name && u.email == ru.email
    ensures (ru.avatar.None? || ru.avatar == Some("")) ==> u.avatar.None?
    ensures ru.avatar.Some? && ru.avatar.value != "" ==> u.avatar == ru.avatar
    ensures ru.learningProgress.None? ==> u.learningProgress == 0
    ensures ru.learningProgress.Some? ==> u.learningProgress == ru.learningProgress.value
    ensures ru.completedLessons.None? ==> u.completedLessons == []
    ensures ru.completedLessons.Some? ==> u.completedLessons == ru.completedLessons.value
  {
    User(
      ru.id, ru.name, ru.email,
      if ru.avatar == Some("") then None else ru.avatar,
      ru.learningProgress.GetOr(0),
      ru.completedLessons.GetOr([]))
  }

  datatype LoginResult = LoginSuccess(user: User) | LoginFailure(error: string)

  datatype SignupResult = SignupSuccess(message: string) | SignupFailure(error: string)

  const LoginFault := "Login failed. Please try again."
  const SignupFault := "Signup failed. Please try again."

  /** What `login` returns: the mock's verdict, or the generic message when the call faults. */
  function LoginOutcome(email: string, password: string, fault: bool, now: nat): (r: LoginResult)
    ensures r.LoginSuccess? <==> !fault && email != "" && password != ""
    ensures r.LoginSuccess? ==>
      r.user.id == 1 && r.user.name == "Demo User" && r.user.email == email
      && r.user.learningProgress == 25
      && r.user.completedLessons == ["lesson1", "lesson2"] && r.user.avatar.None?
    ensures r.LoginFailure? ==> r.error == (if fault then LoginFault else InvalidCredentials)
  {
    if fault then LoginFailure(LoginFault)
    else
      match SimulateLogin(email, password, now)
      case LoginGranted(ru, _) => LoginSuccess(BuildUser(ru))
      case LoginRefused(e) => LoginFailure(e)
  }

  /** What `signup` returns. */
  function SignupOutcome(name: string, email: string, password: string, fault: bool): (r: SignupResult)
    ensures r.SignupSuccess? <==> !fault && name != "" && email != "" && password != ""
    ensures r.SignupSuccess? ==> r.message == AccountCreated
    ensures r.SignupFailure? ==> r.error == (if fault then SignupFault else MissingFields)
  {
    if fault then SignupFailure(SignupFault)
    else
      match SimulateSignup(name, email, password)
      case SignupGranted(_) => SignupSuccess(AccountCreated)
      case SignupRefused(e) => SignupFailure(e)
  }

  // ---------------------------------------------------------------------------
  // Progress updates

  predicate NoDuplicates(s: seq<string>)
  {
    forall i, j :: 0 <= i < j < |s| ==> s[i] != s[j]
  }

  /**
   * The record `updateProgress` writes: progress is the larger of the old and the reported
   * value, the lesson id is appended only when absent, and nothing else changes.
   */
  function UpdatedUser(u: User, lessonId: string, progress: int): (r: User)
    ensures r.learningProgress >= u.learningProgress && r.learningProgress >= progress
    ensures r.learningProgress == u.learningProgress || r.learningProgress == progress
    ensures lessonId in r.completedLessons
    ensures forall x :: x in r.completedLessons <==> x in u.completedLessons || x == lessonId
    ensures |u.completedLessons| <= |r.completedLessons| <= |u.completedLessons| + 1
    ensures r.completedLessons[..|u.completedLessons|] == u.completedLessons
    ensures NoDuplicates(u.completedLessons) ==> NoDuplicates(r.completedLessons)
    ensures r.(learningProgress := u.learningProgress, completedLessons := u.completedLessons) == u
  {
    u.(learningProgress := if u.learningProgress >= progress then u.learningProgress else progress,
       completedLessons := if lessonId in u.completedLessons then u.completedLessons
                           else u.completedLessons + [lessonId])
  }

  /** Reporting the same lesson and progress twice has the effect of reporting it once. */
  lemma UpdatedUserIdempotent(u: User, lessonId: string, progress: int)
    ensures UpdatedUser(UpdatedUser(u, lessonId, progress), lessonId, progress) == UpdatedUser(u, lessonId, progress)
  {
  }

  /** A sequence of `updateProgress(lessonId, progress)` calls on a signed-in user. */
  function ApplyReports(u: User, reports: seq<(string, int)>): User
    decreases |reports|
  {
    if reports == [] then u
    else ApplyReports(UpdatedUser(u, reports[0].0, reports[0].1), reports[1..])
  }

  /** The largest of `start` and every reported progress. */
  function MaxReported(start: int, reports: seq<(string, int)>): (m: int)
    ensures m >= start && forall k :: 0 <= k < |reports| ==> m >= reports[k].1
    ensures m == start || exists k :: 0 <= k < |reports| && m == reports[k].1
    decreases |reports|
  {
    if reports == [] then start
    else
      var m := MaxReported(if start >= reports[0].1 then start else reports[0].1, reports[1..]);
      assert forall k :: 0 < k < |reports| ==> reports[k] == reports[1..][k - 1];
      m
  }

  /** Progress after a sequence of reports is the running maximum. */
  lemma {:induction false} ApplyReportsProgress(u: User, reports: seq<(string, int)>)
    ensures ApplyReports(u, reports).learningProgress == MaxReported(u.learningProgress, reports)
    decreases |reports|
  {
    if reports != [] {
      ApplyReportsProgress(UpdatedUser(u, reports[0].0, reports[0].1), reports[1..]);
    }
  }

  /** A lesson already recorded stays recorded through any sequence of reports. */
  lemma {:induction false} ApplyReportsKeeps(u: User, reports: seq<(string, int)>, lessonId: string)
    requires lessonId in u.completedLessons
    ensures lessonId in ApplyReports(u, reports).completedLessons
    decreases |reports|
  {
    if reports != [] {
      ApplyReportsKeeps(UpdatedUser(u, reports[0].0, reports[0].1), reports[1..], lessonId);
    }
  }

  /** The lesson of the `k`-th report is recorded after the whole sequence. */
  lemma {:induction false} ApplyReportsRecords(u: User, reports: seq<(string, int)>, k: nat)
    requires k < |reports|
    ensures reports[k].0 in ApplyReports(u, reports).completedLessons
    decreases k
  {
    var v := UpdatedUser(u, reports[0].0, reports[0].1);
    var rest := reports[1..];
    assert ApplyReports(u, reports) == ApplyReports(v, rest);
    if k == 0 {
      ApplyReportsKeeps(v, rest, reports[0].0);
    } else {
      assert rest[k - 1] == reports[k];
      ApplyReportsRecords(v, rest, k - 1);
    }
  }

  /** No lesson is recorded twice after a sequence of reports. */
  lemma {:induction false} ApplyReportsUnique(u: User, reports: seq<(string, int)>)
    requires NoDuplicates(u.completedLessons)
    ensures NoDuplicates(ApplyReports(u, reports).completedLessons)
    decreases |reports|
  {
    if reports != [] {
      ApplyReportsUnique(UpdatedUser(u, reports[0].0, reports[0].1), reports[1..]);
    }
  }

  /**
   * After any sequence of reports, progress is the maximum ever reported (never lower than
   * any earlier value), every reported lesson is recorded, and no lesson is recorded twice.
   */
  lemma ApplyReportsSummary(u: User, reports: seq<(string, int)>)
    requires NoDuplicates(u.completedLessons)
    ensures ApplyReports(u, reports).learningProgress == MaxReported(u.learningProgress, reports)
    ensures forall k :: 0 <= k < |reports| ==> reports[k].0 in ApplyReports(u, reports).completedLessons
    ensures forall x :: x in u.completedLessons ==> x in ApplyReports(u, reports).completedLessons
    ensures NoDuplicates(ApplyReports(u, reports).completedLessons)
  {
    ApplyReportsProgress(u, reports);
    forall k | 0 <= k < |reports|
      ensures reports[k].0 in ApplyReports(u, reports).completedLessons
    {
      ApplyReportsRecords(u, reports, k);
    }
    forall x | x in u.completedLessons
      ensures x in ApplyReports(u, reports).completedLessons
    {
      ApplyReportsKeeps(u, reports, x);
    }
    ApplyReportsUnique(u, reports);
  }

  /** Reporting 40 and then 25 for the same lesson leaves progress at 40 and the lesson once. */
  lemma ProgressNeverFalls(u: User)
    requires u.learningProgress <= 40 && u.completedLessons == []
    ensures ApplyReports(u, [("lesson-9", 40), ("lesson-9", 25)]).learningProgress == 40
    ensures ApplyReports(u, [("lesson-9", 40), ("lesson-9", 25)]).completedLessons == ["lesson-9"]
  {
    var rs: seq<(string, int)> := [("lesson-9", 40), ("lesson-9", 25)];
    var tail: seq<(string, int)> := [("lesson-9", 25)];
    assert rs[1..] == tail;
    assert tail[1..] == [];
  }

  // ---------------------------------------------------------------------------
  // The provider

  /** `AuthProvider`: the session state and its operations. */
  class AuthProvider {
    const store: Storage
    var user: Option<User>
    var isLoading: bool
    var isAuthenticated: bool
    /** The requests sent to the authentication service so far, oldest first. */
    var requests: seq<Request>

    /**
     * An authenticated session has both entries persisted, and a present user is
     * authenticated and is the record persisted under `user`. A session may be authenticated
     * without a user: restoring a stored `null` does that.
     */
    ghost predicate Valid()
      reads this, store
    {
      && (isAuthenticated ==> Present(store.entries, "user") && Present(store.entries, "authToken"))
      && (user.Some? ==> isAuthenticated && store.entries["user"] == UserRecord(user.value))
    }

    /** The provider as first rendered: no user, loading. */
    constructor(store: Storage)
      ensures this.store == store
      ensures user.None? && isLoading && !isAuthenticated && requests == []
      ensures Valid()
    {
      this.store := store;
      user := None;
      isLoading := true;
      isAuthenticated := false;
      requests := [];
    }

    /**
     * The mount effect: when both entries are present and truthy, the parsed `user` entry
     * becomes the user and the session is authenticated; then loading stops. `jsonParse` is
     * `JSON.parse` on a stored text. A text it rejects throws: the effect stops there
     * (`parsed` is false) and loading never ends. A text holding `null` or another value
     * that is not a user record leaves the session authenticated with no user.
     */
    method Restore(jsonParse: string -> Parsed) returns (parsed: bool)
      requires Valid()
      modifies this
      ensures Valid() && requests == old(requests)
      ensures var e := store.entries;
        && (Present(e, "user") && Present(e, "authToken") && e["user"].UserRecord? ==>
              user == Some(e["user"].user) && isAuthenticated && !isLoading && parsed)
        && (Present(e, "user") && Present(e, "authToken") && e["user"].Str? && jsonParse(e["user"].s) == Malformed ==>
              user == old(user) && isAuthenticated == old(isAuthenticated)
              && isLoading == old(isLoading) && !parsed)
        && (Present(e, "user") && Present(e, "authToken") && e["user"].Str? && jsonParse(e["user"].s) != Malformed ==>
              user.None? && isAuthenticated && !isLoading && parsed)
        && (!(Present(e, "user") && Present(e, "authToken")) ==>
              user == old(user) && isAuthenticated == old(isAuthenticated) && !isLoading && parsed)
    {
      var savedUser := if "user" in store.entries then Some(store.entries["user"]) else None;
      var token := if "authToken" in store.entries then Some(store.entries["authToken"]) else None;
      if savedUser.Some? && Truthy(savedUser.value) && token.Some? && Truthy(token.value) {
        match savedUser.value
        case Str(s) =>
          if jsonParse(s) == Malformed {
            parsed := false;
            return;
          }
          user := None;
          isAuthenticated := true;
        case UserRecord(u) =>
          user := Some(u);
          isAuthenticated := true;
      }
      isLoading := false;
      parsed := true;
    }

    /**
     * `login`: on success the built record becomes the user, the session is authenticated and
     * both entries are written; on a refusal or a fault nothing changes. Loading is over on
     * every path.
     */
    method Login(email: string, password: string, fault: bool, now: nat) returns (result: LoginResult)
      requires Valid()
      modifies this, store
      ensures Valid() && !isLoading
      ensures requests == old(requests) + [LoginRequest(email, password)]
      ensures result == LoginOutcome(email, password, fault, now)
      ensures result.LoginSuccess? ==>
        && user == Some(result.user) && isAuthenticated
        && store.entries == old(store.entries)["user" := UserRecord(result.user)]["authToken" := Str(SessionToken(now))]
      ensures result.LoginFailure? ==>
        user == old(user) && isAuthenticated == old(isAuthenticated) && store.entries == old(store.entries)
    {
      isLoading := true;
      requests := requests + [LoginRequest(email, password)];
      if fault {
        result := LoginFailure(LoginFault);
      } else {
        var response := SimulateLogin(email, password, now);
        if response.LoginGranted? {
          var userData := BuildUser(response.user);
          user := Some(userData);
          isAuthenticated := true;
          store.SetItem("user", UserRecord(userData));
          store.SetItem("authToken", Str(response.token));
          result := LoginSuccess(userData);
        } else {
          result := LoginFailure(response.error);
        }
      }
      isLoading := false;
    }

    /** `signup`: never signs anyone in and never touches storage; loading is over on every path. */
    method Signup(name: string, email: string, password: string, fault: bool) returns (result: SignupResult)
      requires Valid()
      modifies this
      ensures Valid() && !isLoading
      ensures requests == old(requests) + [SignupRequest(name, email, password)]
      ensures result == SignupOutcome(name, email, password, fault)
      ensures user == old(user) && isAuthenticated == old(isAuthenticated)
    {
      isLoading := true;
      requests := requests + [SignupRequest(name, email, password)];
      if fault {
        result := SignupFailure(SignupFault);
      } else {
        var response := SimulateSignup(name, email, password);
        if response.SignupGranted? {
          result := SignupSuccess(AccountCreated);
        } else {
          result := SignupFailure(response.error);
        }
      }
      isLoading := false;
    }

    /**
     * `logout`: no user, not authenticated, both entries removed. The new state does not
     * depend on the old user, so a second call changes nothing more.
     */
    method Logout()
      requires Valid()
      modifies this, store
      ensures Valid()
      ensures user.None? && !isAuthenticated && isLoading == old(isLoading) && requests == old(requests)
      ensures store.entries == old(store.entries) - {"user", "authToken"}
    {
      user := None;
      isAuthenticated := false;
      store.RemoveItem("user");
      store.RemoveItem("authToken");
    }

    /**
     * `updateProgress`: nothing happens without a user; otherwise the user becomes
     * `UpdatedUser(…)` and is written back under `user`, leaving the token alone.
     */
    method UpdateProgress(lessonId: string, progress: int)
      requires Valid()
      modifies this, store
      ensures Valid()
      ensures isAuthenticated == old(isAuthenticated) && isLoading == old(isLoading) && requests == old(requests)
      ensures old(user).None? ==> user.None? && store.entries == old(store.entries)
      ensures old(user).Some? ==>
        && user == Some(UpdatedUser(old(user).value, lessonId, progress))
        && store.entries == old(store.entries)["user" := UserRecord(user.value)]
    {
      if user.None? {
        return;
      }
      var updatedUser := UpdatedUser(user.value, lessonId, progress);
      user := Some(updatedUser);
      store.SetItem("user", UserRecord(updatedUser));
    }
  }

  /**
   * Persistence round trip: a successful login followed by a fresh start on the same store
   * restores an authenticated session with the same user.
   */
  method LoginThenRestart(store: Storage, jsonParse: string -> Parsed, email: string, password: string, now: nat)
    returns (first: LoginResult, restored: Option<User>, authenticated: bool)
    modifies store
    ensures first.LoginSuccess? ==> restored == Some(first.user) && authenticated
  {
    var p := new AuthProvider(store);
    var _ := p.Restore(jsonParse);
    first := p.Login(email, password, false, now);
    var q := new AuthProvider(store);
    var _ := q.Restore(jsonParse);
    restored, authenticated := q.user, q.isAuthenticated;
  }

  /** After `logout`, a fresh start on the same store is unauthenticated. */
  method LogoutThenRestart(store: Storage, jsonParse: string -> Parsed) returns (restored: Option<User>, authenticated: bool)
    modifies store
    ensures restored.None? && !authenticated
  {
    var p := new AuthProvider(store);
    var _ := p.Restore(jsonParse);
    p.Logout();
    var q := new AuthProvider(store);
    var _ := q.Restore(jsonParse);
    restored, authenticated := q.user, q.isAuthenticated;
  }

  /**
   * A stored `null` next to a token restores an authenticated session that has no user:
   * the check on mount tests only that both texts are non-empty.
   */
  method RestoreStoredNull(store: Storage, jsonParse: string -> Parsed) returns (restored: Option<User>, authenticated: bool, loading: bool)
    requires "user" in store.entries && store.entries["user"] == Str("null") && jsonParse("null") == ParsedNull
    requires Present(store.entries, "authToken")
    ensures restored.None? && authenticated && !loading
  {
    var p := new AuthProvider(store);
    var _ := p.Restore(jsonParse);
    restored, authenticated, loading := p.user, p.isAuthenticated, p.isLoading;
  }

  /** Logging out twice has the effect of logging out once. */
  method LogoutTwice(p: AuthProvider)
    requires p.Valid()
    modifies p, p.store
    ensures p.user.None? && !p.isAuthenticated
    ensures p.store.entries == old(p.store.entries) - {"user", "authToken"}
  {
    p.Logout();
    p.Logout();
  }
}
