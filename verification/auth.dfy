/**
 * The identity-session core: one immutable record of the in-memory state
 * (user, token, guest flag) together with the local store, and one pure
 * transition per operation. Every network call is an input (`Reply`,
 * `MigrationReply`); every request the operation sends is an output, so
 * what an operation asks of the backend can be stated and checked. The
 * clock is a parameter (`today`, `now`).
 */
module Auth {
  import opened Basics
  import opened WebStorage
  import opened Types
  import opened Api

  const AuthTokenKey: string := "authToken"
  const UserKey: string := "user"
  const GuestModeKey: string := "guestMode"
  const GuestHydrationKey: string := "guestHydrationData"
  const GuestProfileKey: string := "guestProfile"
  const GuestHistoryKey: string := "guestHistory"

  /** The keys `clearAuth` removes. */
  const AuthKeys: set<string> := {AuthTokenKey, UserKey, GuestModeKey}
  /** The keys `clearGuestData` removes. */
  const GuestKeys: set<string> := {GuestModeKey, GuestHydrationKey, GuestProfileKey, GuestHistoryKey}

  const ServerFaultMessage: string := "Server Fehler - Bitte Backend Logs prüfen!"
  const LoginRejectedMessage: string := "Ungültige Email oder Passwort"
  const RegisterRejectedMessage: string := "Ungültige Registrierungsdaten"
  const NotGuestMessage: string := "Nicht im Gast-Modus"

  const DefaultGuestProfile: GuestProfile := GuestProfile(70, MEDIUM, NORMAL)

  /** The hydration counter a new guest starts with. */
  function DefaultGuestHydration(today: string): GuestHydrationData {
    GuestHydrationData(0, 2500, 2500, today)
  }

  /** The JSON encodings the core relies on, one per stored shape. */
  datatype Codecs = Codecs(
    user: Codec<User>,
    profile: Codec<GuestProfile>,
    hydration: Codec<GuestHydrationData>,
    history: Codec<seq<GuestIntake>>)

  ghost predicate LawfulCodecs(c: Codecs) {
    Lawful(c.user) && Lawful(c.profile) && Lawful(c.hydration) && Lawful(c.history)
  }

  /** Configuration fixed at start-up: the `VITE_API_URL` value and the encodings. */
  datatype Env = Env(viteApiUrl: Option<string>, codecs: Codecs)

  /** The whole identity session: in-memory state plus the local store. */
  datatype Session = Session(user: Option<User>, token: Option<string>, isGuest: bool, store: Store)

  /** The session before `initAuth` has looked at a store. */
  function Fresh(store: Store): Session {
    Session(None, None, false, store)
  }

  /** `isAuthenticated`: a real login (truthy token and a user) outside guest mode, or guest mode. */
  predicate IsAuthenticated(s: Session)
    ensures IsAuthenticated(s) <==> s.isGuest || (s.token.Some? && s.token.value != "" && s.user.Some?)
    ensures s.token == None && !s.isGuest ==> !IsAuthenticated(s)
  {
    var hasValidAuth := s.token.Some? && s.token.value != "" && s.user.Some? && !s.isGuest;
    hasValidAuth || s.isGuest
  }

  // ---------------------------------------------------------------------------
  // Requests and replies
  // ---------------------------------------------------------------------------

  /** The JSON body of a request the core sends. */
  datatype Payload =
    | LoginPayload(email: string, password: string)
    | RegisterPayload(name: string, email: string, password: string,
                      climate: Climate, weightKg: int, activityLevel: ActivityLevel)
    | MigrationPayload(snapshot: GuestDataExport)

  /** One POST request: URL, optional `Authorization` header, body. */
  datatype Request = Request(url: string, authorization: Option<string>, payload: Payload)

  /** The `error` and `message` fields of an error body (`{}` when the body is not JSON). */
  datatype ErrorFields = ErrorFields(error: Option<string>, message: Option<string>)

  /** What `response.json()` gives on a 2xx login/register reply. */
  datatype AuthBody = Credentials(token: string, user: User) | Undecodable(reason: string)

  /** The outcome of a login or register `fetch`. */
  datatype Reply =
    | TransportFailure(reason: string)
    | Response(status: nat, fields: ErrorFields, body: AuthBody)

  /** The outcome of the migration `fetch`. */
  datatype MigrationReply = MigrationTransportFailure | MigrationResponse(status: nat)

  /** `response.ok`. */
  predicate IsOk(status: nat)
    ensures IsOk(status) <==> status / 100 == 2
  {
    200 <= status <= 299
  }

  /** What `login`, `register` and `upgradeGuestToUser` return. */
  datatype AuthResult = Succeeded | Registered(migrated: bool) | Failed(error: string)

  /** The state after an operation, what it returned, and the requests it sent in order. */
  datatype Transition = Transition(session: Session, result: AuthResult, requests: seq<Request>)

  /** The number a string of decimal digits denotes, most significant digit first. */
  function DecimalValue(r: string): int {
    if |r| == 0 then 0 else 10 * DecimalValue(r[..|r| - 1]) + (r[|r| - 1] as int - '0' as int)
  }

  /** Decimal digits of a status code, as a template literal prints it. */
  function NatToDecimal(n: nat): (r: string)
    ensures |r| >= 1
    ensures forall i :: 0 <= i < |r| ==> '0' <= r[i] <= '9'
    ensures DecimalValue(r) == n
    ensures |r| > 1 ==> r[0] != '0'
    ensures n > 0 ==> r[0] != '0'
    decreases n
  {
    var digit := ['0' + (n % 10) as char];
    if n < 10 then digit
    else
      var prefix := NatToDecimal(n / 10);
      assert (prefix + digit)[..|prefix|] == prefix;
      prefix + digit
  }

  /** `a || b` on an optional string: the first value that is neither absent nor empty. */
  function Or(a: Option<string>, b: string): (r: string)
    ensures a.Some? && a.value != "" ==> r == a.value
    ensures a == None || a == Some("") ==> r == b
  {
    if a.Some? && a.value != "" then a.value else b
  }

  /**
   * The error text for a non-2xx login (`rejectStatus` 401) or register
   * (`rejectStatus` 400) reply.
   */
  function FailureMessage(status: nat, fields: ErrorFields, rejectStatus: nat, rejectFallback: string): (msg: string)
    ensures status == 500 ==> msg == ServerFaultMessage
    ensures status != 500 && status == rejectStatus ==> msg == Or(fields.error, rejectFallback)
    ensures status != 500 && status != rejectStatus && fields.error.Some? && fields.error.value != ""
            ==> msg == fields.error.value
    ensures status != 500 && status != rejectStatus && (fields.error == None || fields.error == Some(""))
            && fields.message.Some? && fields.message.value != ""
            ==> msg == fields.message.value
    ensures status != 500 && status != rejectStatus && (fields.error == None || fields.error == Some(""))
            && (fields.message == None || fields.message == Some(""))
            ==> msg == "HTTP " + NatToDecimal(status)
  {
    if status == 500 then ServerFaultMessage
    else if status == rejectStatus then Or(fields.error, rejectFallback)
    else Or(fields.error, Or(fields.message, "HTTP " + NatToDecimal(status)))
  }

  // ---------------------------------------------------------------------------
  // Local-only operations
  // ---------------------------------------------------------------------------

  /** `clearAuth`: forget user, token and guest flag; drop their three keys. */
  function ClearAuth(s: Session): (r: Session)
    ensures r.user == None && r.token == None && !r.isGuest
    ensures r.store.Keys == s.store.Keys - AuthKeys
    ensures forall k :: k in r.store ==> r.store[k] == s.store[k]
  {
    Session(None, None, false, RemoveItems(s.store, AuthKeys))
  }

  /** `logout`: always succeeds and ends every kind of authentication. */
  function Logout(s: Session): (r: Session)
    ensures !IsAuthenticated(r)
    ensures r.user == None && r.token == None && !r.isGuest
    ensures r.store.Keys == s.store.Keys - AuthKeys
    ensures forall k :: k !in AuthKeys ==> GetItem(r.store, k) == GetItem(s.store, k)
  {
    ClearAuth(s)
  }

  /** `clearGuestData`: drop the guest flag and the three guest data keys. */
  function ClearGuestData(s: Session): (r: Session)
    ensures r.user == s.user && r.token == s.token && r.isGuest == s.isGuest
    ensures r.store.Keys == s.store.Keys - GuestKeys
    ensures forall k :: k in r.store ==> r.store[k] == s.store[k]
  {
    s.(store := RemoveItems(s.store, GuestKeys))
  }

  /** Write `text` under `key` unless the key already holds a truthy item. */
  function SeedIfAbsent(store: Store, key: string, text: string): (r: Store)
    ensures Truthy(GetItem(store, key)) ==> r == store
    ensures !Truthy(GetItem(store, key)) ==> r == store[key := text]
  {
    if !Truthy(GetItem(store, key)) then SetItem(store, key, text) else store
  }

  /**
   * `continueAsGuest`: clear any session, enter guest mode, and seed the
   * default profile and hydration counter only where none is stored.
   */
  function ContinueAsGuest(env: Env, s: Session, today: string): (r: Session)
    ensures r.isGuest && r.user == None && r.token == None
    ensures IsAuthenticated(r)
    ensures GetItem(r.store, GuestModeKey) == Some("true")
    ensures GetItem(r.store, AuthTokenKey) == None && GetItem(r.store, UserKey) == None
    ensures Truthy(GetItem(s.store, GuestProfileKey)) ==> GetItem(r.store, GuestProfileKey) == GetItem(s.store, GuestProfileKey)
    ensures Truthy(GetItem(s.store, GuestHydrationKey)) ==> GetItem(r.store, GuestHydrationKey) == GetItem(s.store, GuestHydrationKey)
    ensures !Truthy(GetItem(s.store, GuestProfileKey))
            ==> GetItem(r.store, GuestProfileKey) == Some(env.codecs.profile.encode(DefaultGuestProfile))
    ensures !Truthy(GetItem(s.store, GuestHydrationKey))
            ==> GetItem(r.store, GuestHydrationKey) == Some(env.codecs.hydration.encode(DefaultGuestHydration(today)))
    ensures forall k :: (k !in AuthKeys + {GuestProfileKey, GuestHydrationKey}
                         ==> GetItem(r.store, k) == GetItem(s.store, k))
  {
    var cleared := ClearAuth(s);
    var store := SetItem(cleared.store, GuestModeKey, "true");
    var store := SeedIfAbsent(store, GuestProfileKey, env.codecs.profile.encode(DefaultGuestProfile));
    var store := SeedIfAbsent(store, GuestHydrationKey, env.codecs.hydration.encode(DefaultGuestHydration(today)));
    Session(cleared.user, cleared.token, true, store)
  }

  /**
   * `initAuth`: rebuild the in-memory state from the store. A guest flag
   * short-circuits everything else; a stored user that does not decode is
   * treated as corruption and removes both user and token.
   */
  function InitAuth(env: Env, s: Session): (r: Session)
    ensures GetItem(s.store, GuestModeKey) == Some("true") ==> r == s.(isGuest := true)
    ensures GetItem(s.store, GuestModeKey) != Some("true") ==> r.isGuest == s.isGuest
    ensures GetItem(s.store, GuestModeKey) != Some("true") && ReadJson(s.store, UserKey, env.codecs.user).Corrupt?
            ==> r.token == None && r.user == s.user
                && r.store == RemoveItems(s.store, {UserKey, AuthTokenKey})
    ensures GetItem(s.store, GuestModeKey) != Some("true") && !ReadJson(s.store, UserKey, env.codecs.user).Corrupt?
            ==> r.store == s.store
                && r.token == (if Truthy(GetItem(s.store, AuthTokenKey)) then Some(s.store[AuthTokenKey]) else s.token)
    ensures GetItem(s.store, GuestModeKey) != Some("true") && ReadJson(s.store, UserKey, env.codecs.user).Parsed?
            ==> r.user == Some(ReadJson(s.store, UserKey, env.codecs.user).value)
    ensures GetItem(s.store, GuestModeKey) != Some("true") && ReadJson(s.store, UserKey, env.codecs.user).Missing?
            ==> r.user == s.user
  {
    if GetItem(s.store, GuestModeKey) == Some("true") then
      s.(isGuest := true)
    else
      var savedToken := GetItem(s.store, AuthTokenKey);
      var withToken := if Truthy(savedToken) then s.(token := Some(savedToken.value)) else s;
      match ReadJson(s.store, UserKey, env.codecs.user)
      case Missing => withToken
      case Parsed(u) => withToken.(user := Some(u))
      case Corrupt =>
        withToken.(store := RemoveItems(withToken.store, {UserKey, AuthTokenKey}), token := None)
  }

  /** `getAuthHeaders`: a bearer header exactly when the token is truthy. */
  function GetAuthHeaders(s: Session): (headers: map<string, string>)
    ensures s.token.Some? && s.token.value != ""
            ==> headers == map["Authorization" := "Bearer " + s.token.value]
    ensures s.token == None || s.token == Some("") ==> headers == map[]
  {
    if s.token.Some? && s.token.value != "" then map["Authorization" := "Bearer " + s.token.value] else map[]
  }

  /**
   * `checkDailyReset`: in guest mode, a stored counter dated other than
   * `today` restarts the day with the same goal. The source parses the stored
   * counter outside any `try`, so text that does not decode makes the call
   * throw: that is `None`, with nothing written.
   */
  function CheckDailyReset(env: Env, s: Session, today: string): (r: Option<Session>)
    ensures !s.isGuest ==> r == Some(s)
    ensures ReadJson(s.store, GuestHydrationKey, env.codecs.hydration).Missing? ==> r == Some(s)
    ensures r == None <==> s.isGuest && ReadJson(s.store, GuestHydrationKey, env.codecs.hydration).Corrupt?
    ensures r.Some? ==> r.value.user == s.user && r.value.token == s.token && r.value.isGuest == s.isGuest
    ensures r.Some? ==> forall k :: k != GuestHydrationKey ==> GetItem(r.value.store, k) == GetItem(s.store, k)
    ensures r.Some? && s.isGuest && ReadJson(s.store, GuestHydrationKey, env.codecs.hydration).Parsed?
            ==> var h := ReadJson(s.store, GuestHydrationKey, env.codecs.hydration).value;
                GetItem(r.value.store, GuestHydrationKey)
                  == if h.date == today then GetItem(s.store, GuestHydrationKey)
                     else Some(env.codecs.hydration.encode(GuestHydrationData(0, h.goalMl, h.goalMl, today)))
  {
    if !s.isGuest then Some(s)
    else
      match ReadJson(s.store, GuestHydrationKey, env.codecs.hydration)
      case Missing => Some(s)
      case Corrupt => None
      case Parsed(data) =>
        if data.date != today then
          var reset := data.(consumedMl := 0, remainingMl := data.goalMl, date := today);
          Some(s.(store := SetItem(s.store, GuestHydrationKey, env.codecs.hydration.encode(reset))))
        else Some(s)
  }

  // ---------------------------------------------------------------------------
  // Guest data migration
  // ---------------------------------------------------------------------------

  /**
   * `collectGuestData`: outside guest mode nothing; otherwise the three guest
   * keys, each optional, stamped with `now`. Any key whose text does not
   * decode makes the whole snapshot `null`.
   */
  function CollectGuestData(env: Env, s: Session, now: string): (r: Option<GuestDataExport>)
    ensures !s.isGuest ==> r == None
    ensures r.Some? ==> r.value.exportedAt == now
    ensures s.isGuest ==> (r == None <==>
              || ReadJson(s.store, GuestHydrationKey, env.codecs.hydration).Corrupt?
              || ReadJson(s.store, GuestProfileKey, env.codecs.profile).Corrupt?
              || ReadJson(s.store, GuestHistoryKey, env.codecs.history).Corrupt?)
    ensures r.Some? ==> (r.value.hydration.Some? <==> ReadJson(s.store, GuestHydrationKey, env.codecs.hydration).Parsed?)
    ensures r.Some? ==> (r.value.profile.Some? <==> ReadJson(s.store, GuestProfileKey, env.codecs.profile).Parsed?)
    ensures r.Some? && ReadJson(s.store, GuestHydrationKey, env.codecs.hydration).Parsed?
            ==> r.value.hydration == Some(ReadJson(s.store, GuestHydrationKey, env.codecs.hydration).value)
    ensures r.Some? && ReadJson(s.store, GuestProfileKey, env.codecs.profile).Parsed?
            ==> r.value.profile == Some(ReadJson(s.store, GuestProfileKey, env.codecs.profile).value)
    ensures r.Some? && ReadJson(s.store, GuestHistoryKey, env.codecs.history).Parsed?
            ==> r.value.history == ReadJson(s.store, GuestHistoryKey, env.codecs.history).value
    ensures r.Some? && ReadJson(s.store, GuestHistoryKey, env.codecs.history).Missing? ==> r.value.history == []
  {
    if !s.isGuest then None
    else
      var hydration := ReadJson(s.store, GuestHydrationKey, env.codecs.hydration);
      var profile := ReadJson(s.store, GuestProfileKey, env.codecs.profile);
      var history := ReadJson(s.store, GuestHistoryKey, env.codecs.history);
      if hydration.Corrupt? || profile.Corrupt? || history.Corrupt? then None
      else
        Some(GuestDataExport(
          if hydration.Parsed? then Some(hydration.value) else None,
          if profile.Parsed? then Some(profile.value) else None,
          if history.Parsed? then history.value else [],
          now))
  }

  /** The guard in front of a migration attempt: a snapshot with hydration data or some history. */
  predicate WorthMigrating(snapshot: Option<GuestDataExport>)
    ensures snapshot == None ==> !WorthMigrating(snapshot)
    ensures snapshot.Some? && snapshot.value.hydration == None && snapshot.value.history == []
            ==> !WorthMigrating(snapshot)
    ensures snapshot.Some? && snapshot.value.hydration.Some? ==> WorthMigrating(snapshot)
    ensures snapshot.Some? && snapshot.value.history != [] ==> WorthMigrating(snapshot)
  {
    snapshot.Some? && (snapshot.value.hydration.Some? || |snapshot.value.history| > 0)
  }

  /** The request `migrateGuestDataToBackend` sends. */
  function MigrationRequest(env: Env, token: string, snapshot: GuestDataExport): (req: Request)
    ensures |req.url| == |ApiBase(env.viteApiUrl)| + |"/api/migrate-guest-data"|
    ensures req.url[..|ApiBase(env.viteApiUrl)|] == ApiBase(env.viteApiUrl)
    ensures req.url[|ApiBase(env.viteApiUrl)|..] == "/api/migrate-guest-data"
    ensures req.authorization == Some("Bearer " + token)
    ensures req.payload == MigrationPayload(snapshot)
  {
    Request(ApiUrl(ApiBase(env.viteApiUrl), "/api/migrate-guest-data"), Some("Bearer " + token), MigrationPayload(snapshot))
  }

  /** `migrateGuestDataToBackend`'s boolean: only a 2xx reply counts as success. */
  predicate MigrationSucceeded(reply: MigrationReply)
    ensures reply.MigrationTransportFailure? ==> !MigrationSucceeded(reply)
    ensures reply.MigrationResponse? ==> (MigrationSucceeded(reply) <==> 200 <= reply.status < 300)
  {
    reply.MigrationResponse? && IsOk(reply.status)
  }

  /** State and store right after a 2xx login/register reply, before any migration step. */
  function SignIn(env: Env, s: Session, token: string, u: User): (r: Session)
    ensures r.user == Some(u) && r.token == Some(token) && !r.isGuest
    ensures r.store == RemoveItems(s.store[AuthTokenKey := token][UserKey := env.codecs.user.encode(u)], {GuestModeKey})
  {
    var store := SetItem(s.store, AuthTokenKey, token);
    var store := SetItem(store, UserKey, env.codecs.user.encode(u));
    var store := RemoveItems(store, {GuestModeKey});
    Session(Some(u), Some(token), false, store)
  }

  /**
   * The shared tail of a successful login/register: migrate `snapshot` when
   * it is worth it, clearing guest data only if that worked; clear guest data
   * straight away when it is not.
   */
  function FinishSignIn(env: Env, signed: Session, token: string, snapshot: Option<GuestDataExport>,
                        migration: MigrationReply): (r: (Session, seq<Request>))
    ensures WorthMigrating(snapshot) ==> r.1 == [MigrationRequest(env, token, snapshot.value)]
    ensures !WorthMigrating(snapshot) ==> r.1 == []
    ensures r.0 == if WorthMigrating(snapshot) && !MigrationSucceeded(migration) then signed
                   else ClearGuestData(signed)
  {
    if WorthMigrating(snapshot) then
      var request := MigrationRequest(env, token, snapshot.value);
      if MigrationSucceeded(migration) then (ClearGuestData(signed), [request])
      else (signed, [request])
    else (ClearGuestData(signed), [])
  }

  /** The login request. */
  function LoginRequest(env: Env, credentials: LoginCredentials): (req: Request)
    ensures |req.url| == |ApiBase(env.viteApiUrl)| + |"/api/auth/login"|
    ensures req.url[..|ApiBase(env.viteApiUrl)|] == ApiBase(env.viteApiUrl)
    ensures req.url[|ApiBase(env.viteApiUrl)|..] == "/api/auth/login"
    ensures req.authorization == None
    ensures req.payload == LoginPayload(credentials.email, credentials.password)
  {
    Request(ApiUrl(ApiBase(env.viteApiUrl), "/api/auth/login"), None,
            LoginPayload(credentials.email, credentials.password))
  }

  /**
   * The register request: the name, email and password given, plus fixed
   * defaults for the profile fields the backend requires.
   */
  function RegisterRequest(env: Env, data: RegisterData): (req: Request)
    ensures |req.url| == |ApiBase(env.viteApiUrl)| + |"/api/auth/register"|
    ensures req.url[..|ApiBase(env.viteApiUrl)|] == ApiBase(env.viteApiUrl)
    ensures req.url[|ApiBase(env.viteApiUrl)|..] == "/api/auth/register"
    ensures req.authorization == None
    ensures req.payload.RegisterPayload?
    ensures req.payload.name == data.name && req.payload.email == data.email && req.payload.password == data.password
    ensures req.payload.climate == NORMAL && req.payload.weightKg == 70 && req.payload.activityLevel == MEDIUM
  {
    Request(ApiUrl(ApiBase(env.viteApiUrl), "/api/auth/register"), None,
            RegisterPayload(data.name, data.email, data.password, NORMAL, 70, MEDIUM))
  }

  /** A reply that signs the user in: 2xx with a decodable `{token, user}` body. */
  predicate SignsIn(reply: Reply)
    ensures reply.TransportFailure? ==> !SignsIn(reply)
    ensures reply.Response? && !(200 <= reply.status < 300) ==> !SignsIn(reply)
    ensures reply.Response? && reply.body.Undecodable? ==> !SignsIn(reply)
    ensures reply.Response? && 200 <= reply.status < 300 && reply.body.Credentials? ==> SignsIn(reply)
  {
    reply.Response? && IsOk(reply.status) && reply.body.Credentials?
  }

  /** The error text of a reply that does not sign in. */
  function ReplyError(reply: Reply, rejectStatus: nat, rejectFallback: string): (msg: string)
    requires !SignsIn(reply)
    ensures reply.TransportFailure? ==> msg == reply.reason
    ensures reply.Response? && reply.status == 500 ==> msg == ServerFaultMessage
    ensures reply.Response? && reply.status == rejectStatus && reply.status != 500 && !IsOk(reply.status)
            ==> msg == Or(reply.fields.error, rejectFallback)
    ensures reply.Response? && IsOk(reply.status) ==> msg == reply.body.reason
    ensures reply.Response? && !IsOk(reply.status)
            ==> msg == FailureMessage(reply.status, reply.fields, rejectStatus, rejectFallback)
  {
    match reply
    case TransportFailure(reason) => reason
    case Response(status, fields, body) =>
      if !IsOk(status) then FailureMessage(status, fields, rejectStatus, rejectFallback)
      else body.reason
  }

  /**
   * `login`. After the 2xx reply the guest flag is already cleared when the
   * snapshot is collected, so the snapshot is always `null`: migration is
   * never attempted and guest data is always cleared.
   */
  function Login(env: Env, s: Session, credentials: LoginCredentials, reply: Reply,
                 migration: MigrationReply, now: string): (t: Transition)
    ensures |t.requests| >= 1 && t.requests[0] == LoginRequest(env, credentials)
    ensures t.result.Succeeded? <==> SignsIn(reply)
    ensures !SignsIn(reply) ==> t == Transition(s, Failed(ReplyError(reply, 401, LoginRejectedMessage)), [LoginRequest(env, credentials)])
  {
    var request := LoginRequest(env, credentials);
    if !SignsIn(reply) then
      Transition(s, Failed(ReplyError(reply, 401, LoginRejectedMessage)), [request])
    else
      var signed := SignIn(env, s, reply.body.token, reply.body.user);
      var snapshot := CollectGuestData(env, signed, now);
      var (after, sent) := FinishSignIn(env, signed, reply.body.token, snapshot, migration);
      Transition(after, Succeeded, [request] + sent)
  }

  /**
   * `login` with the guest snapshot taken before signing in, as `register`
   * does, so that a guest's data is migrated instead of discarded.
   */
  function LoginSnapshotFirst(env: Env, s: Session, credentials: LoginCredentials, reply: Reply,
                              migration: MigrationReply, now: string): (t: Transition)
    ensures |t.requests| >= 1 && t.requests[0] == LoginRequest(env, credentials)
    ensures t.result.Succeeded? <==> SignsIn(reply)
    ensures !SignsIn(reply) ==> t == Transition(s, Failed(ReplyError(reply, 401, LoginRejectedMessage)), [LoginRequest(env, credentials)])
  {
    var snapshot := CollectGuestData(env, s, now);
    var request := LoginRequest(env, credentials);
    if !SignsIn(reply) then
      Transition(s, Failed(ReplyError(reply, 401, LoginRejectedMessage)), [request])
    else
      var signed := SignIn(env, s, reply.body.token, reply.body.user);
      var (after, sent) := FinishSignIn(env, signed, reply.body.token, snapshot, migration);
      Transition(after, Succeeded, [request] + sent)
  }

  /**
   * `register`. The guest snapshot is taken before the request, so a guest's
   * data can be migrated; `migrated` reports only that a snapshot existed.
   */
  function Register(env: Env, s: Session, data: RegisterData, reply: Reply,
                    migration: MigrationReply, now: string): (t: Transition)
    ensures |t.requests| >= 1 && t.requests[0] == RegisterRequest(env, data)
    ensures t.result.Registered? <==> SignsIn(reply)
    ensures t.result.Registered? ==> t.result.migrated == CollectGuestData(env, s, now).Some?
    ensures !SignsIn(reply) ==> t == Transition(s, Failed(ReplyError(reply, 400, RegisterRejectedMessage)), [RegisterRequest(env, data)])
  {
    var snapshot := CollectGuestData(env, s, now);
    var request := RegisterRequest(env, data);
    if !SignsIn(reply) then
      Transition(s, Failed(ReplyError(reply, 400, RegisterRejectedMessage)), [request])
    else
      var signed := SignIn(env, s, reply.body.token, reply.body.user);
      var (after, sent) := FinishSignIn(env, signed, reply.body.token, snapshot, migration);
      Transition(after, Registered(snapshot.Some?), [request] + sent)
  }

  /** `upgradeGuestToUser`: refused without any request outside guest mode, `register` otherwise. */
  function UpgradeGuestToUser(env: Env, s: Session, data: RegisterData, reply: Reply,
                              migration: MigrationReply, now: string): (t: Transition)
    ensures !s.isGuest ==> t == Transition(s, Failed(NotGuestMessage), [])
    ensures s.isGuest ==> t == Register(env, s, data, reply, migration, now)
  {
    if !s.isGuest then Transition(s, Failed(NotGuestMessage), [])
    else Register(env, s, data, reply, migration, now)
  }
}
