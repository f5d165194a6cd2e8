/**
 * Properties that relate several identity-core operations: what a
 * successful login or register leaves behind, that failures change nothing,
 * idempotence of guest entry, guest clearing and the daily reset, and that
 * persisted state survives a reload through `InitAuth`.
 */
module AuthProperties {
  import opened Basics
  import opened WebStorage
  import opened Types
  import opened Auth
  import Calculations

  /** The store a successful sign-in leaves when guest data is cleared. */
  function SignedInStore(env: Env, store: Store, token: string, u: User): Store {
    RemoveItems(store, GuestKeys)[AuthTokenKey := token][UserKey := env.codecs.user.encode(u)]
  }

  lemma SignInThenClear(env: Env, s: Session, token: string, u: User)
    ensures ClearGuestData(SignIn(env, s, token, u)).store == SignedInStore(env, s.store, token, u)
  {
    var a := ClearGuestData(SignIn(env, s, token, u)).store;
    var b := SignedInStore(env, s.store, token, u);
    assert a.Keys == b.Keys;
    forall k | k in a ensures a[k] == b[k] {
    }
  }

  /**
   * A successful login sets state and store from the reply, sends only the
   * login request, and removes every guest key, whatever the prior mode.
   */
  lemma LoginSuccess(env: Env, s: Session, credentials: LoginCredentials, reply: Reply,
                                        migration: MigrationReply, now: string)
    requires SignsIn(reply)
    ensures var t := Login(env, s, credentials, reply, migration, now);
            && t.result == Succeeded
            && t.requests == [LoginRequest(env, credentials)]
            && t.session == Session(Some(reply.body.user), Some(reply.body.token), false,
                                    SignedInStore(env, s.store, reply.body.token, reply.body.user))
  {
    var signed := SignIn(env, s, reply.body.token, reply.body.user);
    assert CollectGuestData(env, signed, now) == None;
    SignInThenClear(env, s, reply.body.token, reply.body.user);
  }

  /** Login never consults the migration reply. */
  lemma LoginIgnoresMigration(env: Env, s: Session, credentials: LoginCredentials, reply: Reply,
                              m1: MigrationReply, m2: MigrationReply, now: string)
    ensures Login(env, s, credentials, reply, m1, now) == Login(env, s, credentials, reply, m2, now)
  {
  }

  /** After a successful login the session is authenticated exactly when the token is non-empty. */
  lemma LoginAuthenticates(env: Env, s: Session, credentials: LoginCredentials, reply: Reply,
                           migration: MigrationReply, now: string)
    requires SignsIn(reply)
    ensures var t := Login(env, s, credentials, reply, migration, now);
            !t.session.isGuest && (IsAuthenticated(t.session) <==> reply.body.token != "")
  {
  }

  /**
   * A successful register sets state and store like login, tries migration
   * exactly when the snapshot taken beforehand is worth migrating, and keeps
   * guest data only when that attempt failed.
   */
  lemma RegisterSuccess(env: Env, s: Session, data: RegisterData, reply: Reply,
                                           migration: MigrationReply, now: string)
    requires SignsIn(reply)
    ensures var t := Register(env, s, data, reply, migration, now);
            var snapshot := CollectGuestData(env, s, now);
            var token := reply.body.token;
            var u := reply.body.user;
            && t.result == Registered(snapshot.Some?)
            && t.session.user == Some(u) && t.session.token == Some(token) && !t.session.isGuest
            && (WorthMigrating(snapshot) ==> t.requests == [RegisterRequest(env, data), MigrationRequest(env, token, snapshot.value)])
            && (!WorthMigrating(snapshot) ==> t.requests == [RegisterRequest(env, data)])
            && (WorthMigrating(snapshot) && !MigrationSucceeded(migration)
                ==> t.session.store == RemoveItems(s.store[AuthTokenKey := token][UserKey := env.codecs.user.encode(u)], {GuestModeKey}))
            && (!WorthMigrating(snapshot) || MigrationSucceeded(migration)
                ==> t.session.store == SignedInStore(env, s.store, token, u))
  {
    SignInThenClear(env, s, reply.body.token, reply.body.user);
  }

  /** Outside guest mode register never migrates and reports `migrated == false`. */
  lemma RegisterWithoutGuest(env: Env, s: Session, data: RegisterData, reply: Reply,
                             migration: MigrationReply, now: string)
    requires SignsIn(reply) && !s.isGuest
    ensures var t := Register(env, s, data, reply, migration, now);
            t.result == Registered(false) && |t.requests| == 1
  {
  }

  /** A failed login or register leaves the whole session as it was, guest sessions included. */
  lemma FailureChangesNothing(env: Env, s: Session, credentials: LoginCredentials, data: RegisterData,
                              reply: Reply, migration: MigrationReply, now: string)
    requires !SignsIn(reply)
    ensures Login(env, s, credentials, reply, migration, now).session == s
    ensures Register(env, s, data, reply, migration, now).session == s
    ensures UpgradeGuestToUser(env, s, data, reply, migration, now).session == s
    ensures Login(env, s, credentials, reply, migration, now).result.Failed?
    ensures Register(env, s, data, reply, migration, now).result.Failed?
    ensures UpgradeGuestToUser(env, s, data, reply, migration, now).result.Failed?
  {
  }

  /** The error texts of the documented failure replies. */
  lemma FailureMessages(env: Env, s: Session, credentials: LoginCredentials, data: RegisterData,
                        fields: ErrorFields, body: AuthBody, migration: MigrationReply, now: string)
    ensures Login(env, s, credentials, Response(401, ErrorFields(Some(LoginRejectedMessage), None), body), migration, now).result
            == Failed(LoginRejectedMessage)
    ensures Login(env, s, credentials, Response(500, fields, body), migration, now).result == Failed(ServerFaultMessage)
    ensures Register(env, s, data, Response(500, fields, body), migration, now).result == Failed(ServerFaultMessage)
    ensures Login(env, s, credentials, Response(401, ErrorFields(None, Some("x")), body), migration, now).result
            == Failed(LoginRejectedMessage)
    ensures Register(env, s, data, Response(400, ErrorFields(None, None), body), migration, now).result
            == Failed(RegisterRejectedMessage)
    ensures Register(env, s, data, Response(401, ErrorFields(None, Some("bad")), body), migration, now).result
            == Failed("bad")
    ensures Login(env, s, credentials, Response(404, ErrorFields(Some(""), None), body), migration, now).result
            == Failed("HTTP 404")
  {
    NotFoundDigits();
  }

  /** The status 404 prints as its three digits. */
  lemma NotFoundDigits()
    ensures NatToDecimal(404) == "404"
  {
    assert NatToDecimal(4) == "4";
    assert NatToDecimal(40) == "40";
  }

  /** Entering guest mode twice is the same as entering it once: stored guest data is never reseeded. */
  lemma ContinueAsGuestIdempotent(env: Env, s: Session, today1: string, today2: string)
    requires Lawful(env.codecs.profile) && Lawful(env.codecs.hydration)
    ensures ContinueAsGuest(env, ContinueAsGuest(env, s, today1), today2) == ContinueAsGuest(env, s, today1)
  {
    var once := ContinueAsGuest(env, s, today1);
    var twice := ContinueAsGuest(env, once, today2);
    assert env.codecs.profile.decode(env.codecs.profile.encode(DefaultGuestProfile)) == Some(DefaultGuestProfile)
        && env.codecs.profile.encode(DefaultGuestProfile) != "";
    assert env.codecs.hydration.decode(env.codecs.hydration.encode(DefaultGuestHydration(today1))) == Some(DefaultGuestHydration(today1))
        && env.codecs.hydration.encode(DefaultGuestHydration(today1)) != "";
    assert Truthy(GetItem(once.store, GuestProfileKey));
    assert Truthy(GetItem(once.store, GuestHydrationKey));
    assert twice.store.Keys == once.store.Keys;
    forall k | k in twice.store ensures twice.store[k] == once.store[k] {
      assert GetItem(twice.store, k) == GetItem(once.store, k);
    }
  }

  /** Guest mode authenticates; logging out ends it but keeps the guest's data. */
  lemma GuestThenLogout(env: Env, s: Session, today: string)
    ensures IsAuthenticated(ContinueAsGuest(env, s, today))
    ensures var out := Logout(ContinueAsGuest(env, s, today));
            && !IsAuthenticated(out) && !out.isGuest
            && GetItem(out.store, GuestModeKey) == None
            && GetItem(out.store, GuestProfileKey) == GetItem(ContinueAsGuest(env, s, today).store, GuestProfileKey)
            && GetItem(out.store, GuestHydrationKey) == GetItem(ContinueAsGuest(env, s, today).store, GuestHydrationKey)
            && GetItem(out.store, GuestHistoryKey) == GetItem(s.store, GuestHistoryKey)
  {
  }

  /** Clearing guest data twice is clearing it once. */
  lemma ClearGuestDataIdempotent(s: Session)
    ensures ClearGuestData(ClearGuestData(s)) == ClearGuestData(s)
    ensures forall k :: k in GuestKeys ==> GetItem(ClearGuestData(s).store, k) == None
  {
  }

  /** Outside guest mode the upgrade is refused at once and contacts nobody. */
  lemma UpgradeRequiresGuest(env: Env, s: Session, data: RegisterData, reply: Reply,
                             migration: MigrationReply, now: string)
    requires !s.isGuest
    ensures var t := UpgradeGuestToUser(env, s, data, reply, migration, now);
            t.requests == [] && t.result == Failed("Nicht im Gast-Modus") && t.session == s
  {
  }

  /** Running the daily reset again on the same day changes nothing. */
  lemma DailyResetIdempotent(env: Env, s: Session, today: string)
    requires Lawful(env.codecs.hydration)
    requires CheckDailyReset(env, s, today).Some?
    ensures var once := CheckDailyReset(env, s, today).value;
            CheckDailyReset(env, once, today) == Some(once)
  {
    var once := CheckDailyReset(env, s, today).value;
    if s.isGuest {
      var read := ReadJson(s.store, GuestHydrationKey, env.codecs.hydration);
      if read.Parsed? && read.value.date != today {
        var h := read.value;
        ReadAfterWrite(s.store, GuestHydrationKey, env.codecs.hydration,
                       h.(consumedMl := 0, remainingMl := h.goalMl, date := today));
      }
    }
  }

  /**
   * A stale counter comes back zeroed, dated today, with its goal kept and
   * `remainingMl` again equal to `calculateRemaining(consumedMl, goalMl)`.
   */
  lemma DailyResetRestartsDay(env: Env, s: Session, today: string)
    requires Lawful(env.codecs.hydration)
    requires s.isGuest
    requires ReadJson(s.store, GuestHydrationKey, env.codecs.hydration).Parsed?
    requires ReadJson(s.store, GuestHydrationKey, env.codecs.hydration).value.date != today
    ensures var stale := ReadJson(s.store, GuestHydrationKey, env.codecs.hydration).value;
            var after := CheckDailyReset(env, s, today);
            && after.Some?
            && var h := ReadJson(after.value.store, GuestHydrationKey, env.codecs.hydration);
            && h.Parsed?
            && h.value == GuestHydrationData(0, stale.goalMl, stale.goalMl, today)
            && (stale.goalMl >= 0 ==> h.value.remainingMl == Calculations.Remaining(h.value.consumedMl, h.value.goalMl))
  {
    var h := ReadJson(s.store, GuestHydrationKey, env.codecs.hydration).value;
    ReadAfterWrite(s.store, GuestHydrationKey, env.codecs.hydration,
                   h.(consumedMl := 0, remainingMl := h.goalMl, date := today));
  }

  /** The reset example: yesterday's 1800 of 2500 becomes 0 of 2500 today. */
  lemma DailyResetExample(env: Env, s: Session)
    requires Lawful(env.codecs.hydration)
    requires s.isGuest
    requires s.store == map[GuestHydrationKey := env.codecs.hydration.encode(GuestHydrationData(1800, 2500, 700, "2024-01-01"))]
    ensures var after := CheckDailyReset(env, s, "2024-01-02");
            && after.Some?
            && ReadJson(after.value.store, GuestHydrationKey, env.codecs.hydration) == Parsed(GuestHydrationData(0, 2500, 2500, "2024-01-02"))
    ensures CheckDailyReset(env, s, "2024-01-01") == Some(s)
  {
    var h := GuestHydrationData(1800, 2500, 700, "2024-01-01");
    ReadAfterWrite(map[], GuestHydrationKey, env.codecs.hydration, h);
    assert ReadJson(s.store, GuestHydrationKey, env.codecs.hydration) == Parsed(h);
    DailyResetRestartsDay(env, s, "2024-01-02");
  }

  /** A login persists enough for a reload to rebuild the same user and (truthy) token. */
  lemma LoginSurvivesReload(env: Env, s: Session, credentials: LoginCredentials, reply: Reply,
                                               migration: MigrationReply, now: string)
    requires Lawful(env.codecs.user)
    requires SignsIn(reply)
    ensures var stored := Login(env, s, credentials, reply, migration, now).session.store;
            var reloaded := InitAuth(env, Fresh(stored));
            && reloaded.user == Some(reply.body.user)
            && reloaded.token == (if reply.body.token != "" then Some(reply.body.token) else None)
            && !reloaded.isGuest
            && reloaded.store == stored
  {
    LoginSuccess(env, s, credentials, reply, migration, now);
    var stored := SignedInStore(env, s.store, reply.body.token, reply.body.user);
    assert stored[UserKey] == env.codecs.user.encode(reply.body.user);
    assert env.codecs.user.decode(env.codecs.user.encode(reply.body.user)) == Some(reply.body.user)
        && env.codecs.user.encode(reply.body.user) != "";
    assert GuestModeKey !in stored;
  }

  /** Guest mode survives a reload, and the reload loads nothing else. */
  lemma GuestSurvivesReload(env: Env, s: Session, today: string)
    ensures var stored := ContinueAsGuest(env, s, today).store;
            InitAuth(env, Fresh(stored)) == Session(None, None, true, stored)
  {
  }

  /** A stored user that does not decode wipes user and token on reload. */
  lemma CorruptUserIsDropped(env: Env, store: Store)
    requires GuestModeKey !in store
    requires UserKey in store && store[UserKey] != "" && env.codecs.user.decode(store[UserKey]) == None
    ensures var r := InitAuth(env, Fresh(store));
            && r == Fresh(RemoveItems(store, {UserKey, AuthTokenKey}))
            && !IsAuthenticated(r)
  {
  }

  /**
   * The documented upgrade scenario: a guest with two recorded intakes
   * registers against a backend that accepts both the registration and the
   * migration; the result is a signed-in user with no guest data left.
   */
  lemma GuestRegistersAndMigrates(env: Env, today: string, now: string, data: RegisterData,
                                                     token: string, u: User, intakes: seq<GuestIntake>)
    requires LawfulCodecs(env.codecs)
    requires |intakes| == 2
    ensures var guest := ContinueAsGuest(env, Fresh(map[]), today);
            var withHistory := guest.(store := guest.store[GuestHistoryKey := env.codecs.history.encode(intakes)]);
            var t := UpgradeGuestToUser(env, withHistory, data, Response(201, ErrorFields(None, None), Credentials(token, u)),
                                        MigrationResponse(200), now);
            && t.result == Registered(true)
            && |t.requests| == 2
            && t.requests[1].payload.snapshot.history == intakes
            && !t.session.isGuest && t.session.token == Some(token) && t.session.user == Some(u)
            && forall k :: k in GuestKeys ==> GetItem(t.session.store, k) == None
  {
    var guest := ContinueAsGuest(env, Fresh(map[]), today);
    var withHistory := guest.(store := guest.store[GuestHistoryKey := env.codecs.history.encode(intakes)]);
    ReadAfterWrite(guest.store, GuestHistoryKey, env.codecs.history, intakes);
    ReadAfterWrite(map[][GuestModeKey := "true"], GuestProfileKey, env.codecs.profile, DefaultGuestProfile);
    ReadAfterWrite(map[][GuestModeKey := "true"][GuestProfileKey := env.codecs.profile.encode(DefaultGuestProfile)],
                   GuestHydrationKey, env.codecs.hydration, DefaultGuestHydration(today));
    assert ReadJson(withHistory.store, GuestProfileKey, env.codecs.profile).Parsed?;
    assert ReadJson(withHistory.store, GuestHydrationKey, env.codecs.hydration).Parsed?;
    var snapshot := CollectGuestData(env, withHistory, now);
    assert snapshot.Some? && snapshot.value.history == intakes;
    RegisterSuccess(env, withHistory, data, Response(201, ErrorFields(None, None), Credentials(token, u)),
                    MigrationResponse(200), now);
  }

  /**
   * As written, a guest with hydration data who logs in loses it: the
   * migration request is never sent, yet the counter is removed.
   */
  lemma LoginDiscardsGuestData(env: Env, s: Session, credentials: LoginCredentials, reply: Reply,
                               migration: MigrationReply, now: string)
    requires SignsIn(reply)
    requires s.isGuest && WorthMigrating(CollectGuestData(env, s, now))
    ensures var t := Login(env, s, credentials, reply, migration, now);
            && |t.requests| == 1
            && GetItem(t.session.store, GuestHydrationKey) == None
            && GetItem(t.session.store, GuestHistoryKey) == None
  {
    LoginSuccess(env, s, credentials, reply, migration, now);
  }

  /**
   * With the snapshot taken first, a guest's data is offered to the backend
   * and is removed only once the backend has accepted it.
   */
  lemma LoginSnapshotFirstKeepsGuestData(env: Env, s: Session, credentials: LoginCredentials,
                                                            reply: Reply, migration: MigrationReply, now: string)
    requires SignsIn(reply)
    requires s.isGuest && WorthMigrating(CollectGuestData(env, s, now))
    ensures var t := LoginSnapshotFirst(env, s, credentials, reply, migration, now);
            && t.requests == [LoginRequest(env, credentials),
                              MigrationRequest(env, reply.body.token, CollectGuestData(env, s, now).value)]
            && (!MigrationSucceeded(migration) ==>
                  forall k :: k in {GuestHydrationKey, GuestProfileKey, GuestHistoryKey}
                              ==> GetItem(t.session.store, k) == GetItem(s.store, k))
            && (MigrationSucceeded(migration) ==> t.session.store == SignedInStore(env, s.store, reply.body.token, reply.body.user))
  {
    SignInThenClear(env, s, reply.body.token, reply.body.user);
  }

  /**
   * The counter seeded for a new guest satisfies the remaining-amount rule,
   * but its 2500 ml goal is not what the seeded profile would give.
   */
  lemma SeededGuestDefaults(today: string)
    ensures var h := DefaultGuestHydration(today);
            h.remainingMl == Calculations.Remaining(h.consumedMl, h.goalMl)
    ensures Calculations.DailyGoal(Calculations.PartialProfile(
              Some(DefaultGuestProfile.weightKg), Some(DefaultGuestProfile.activityLevel), Some(DefaultGuestProfile.climate)))
            == 2700 != DefaultGuestHydration(today).goalMl
  {
  }

  /** Requests carry the bearer token of a login and nothing once logged out. */
  lemma HeadersFollowSession(env: Env, s: Session, credentials: LoginCredentials, reply: Reply,
                             migration: MigrationReply, now: string)
    requires SignsIn(reply) && reply.body.token != ""
    ensures GetAuthHeaders(Login(env, s, credentials, reply, migration, now).session)
            == map["Authorization" := "Bearer " + reply.body.token]
    ensures GetAuthHeaders(Logout(Login(env, s, credentials, reply, migration, now).session)) == map[]
  {
  }

  /** A new guest's snapshot holds exactly the seeded profile and counter, and no history. */
  lemma FreshGuestSnapshot(env: Env, today: string, now: string)
    requires Lawful(env.codecs.profile) && Lawful(env.codecs.hydration)
    ensures CollectGuestData(env, ContinueAsGuest(env, Fresh(map[]), today), now)
            == Some(GuestDataExport(Some(DefaultGuestHydration(today)), Some(DefaultGuestProfile), [], now))
  {
    var guest := ContinueAsGuest(env, Fresh(map[]), today);
    var withFlag := map[][GuestModeKey := "true"];
    ReadAfterWrite(withFlag, GuestProfileKey, env.codecs.profile, DefaultGuestProfile);
    ReadAfterWrite(withFlag[GuestProfileKey := env.codecs.profile.encode(DefaultGuestProfile)],
                   GuestHydrationKey, env.codecs.hydration, DefaultGuestHydration(today));
    assert ReadJson(guest.store, GuestHistoryKey, env.codecs.history).Missing?;
  }

  /** A guest's snapshot gives back exactly the counter, profile and history last written. */
  lemma CollectAfterWrite(env: Env, s: Session, h: GuestHydrationData, p: GuestProfile,
                          history: seq<GuestIntake>, now: string)
    requires LawfulCodecs(env.codecs)
    requires s.isGuest
    ensures var store := s.store[GuestHydrationKey := env.codecs.hydration.encode(h)]
                                [GuestProfileKey := env.codecs.profile.encode(p)]
                                [GuestHistoryKey := env.codecs.history.encode(history)];
            CollectGuestData(env, s.(store := store), now) == Some(GuestDataExport(Some(h), Some(p), history, now))
  {
    var s1 := s.store[GuestHydrationKey := env.codecs.hydration.encode(h)];
    var s2 := s1[GuestProfileKey := env.codecs.profile.encode(p)];
    var s3 := s2[GuestHistoryKey := env.codecs.history.encode(history)];
    ReadAfterWrite(s.store, GuestHydrationKey, env.codecs.hydration, h);
    ReadAfterWrite(s1, GuestProfileKey, env.codecs.profile, p);
    ReadAfterWrite(s2, GuestHistoryKey, env.codecs.history, history);
    assert GetItem(s3, GuestHydrationKey) == GetItem(s1, GuestHydrationKey);
    assert GetItem(s3, GuestProfileKey) == GetItem(s2, GuestProfileKey);
  }

  /** Once guest data is cleared, a snapshot still exists in guest mode but carries nothing. */
  lemma CollectAfterClear(env: Env, s: Session, now: string)
    requires s.isGuest
    ensures CollectGuestData(env, ClearGuestData(s), now) == Some(GuestDataExport(None, None, [], now))
  {
  }
}
