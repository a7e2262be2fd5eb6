// From an empty control plane and an agent that was never seen before to both
// sides in step: the whole story told once, for any key and any settings.
module FirstContact {
  import opened Text
  import opened Tokens
  import opened Schema
  import opened Messages
  import opened Handlers
  import opened Runs
  import opened Versions
  import opened ReplayGuard
  import opened AgentLoop
  import opened Management
  import opened Truth
  import opened Convergence

  // ---------- A calm run can always go on ----------

  const INFO := Info("", "h", "", "", "", "", "")

  // For each step a nonce that the device has not used, no two alike, and a
  // reading of the agent's clock.
  ghost predicate Supplies(db: Db, id: int, nonces: seq<string>, times: seq<int>) {
    && |nonces| == |times|
    && (forall j :: 0 <= j < |nonces| ==> GoodNonce(nonces[j]) && (id, nonces[j]) !in db.nonces)
    && (forall i, j :: 0 <= i < j < |nonces| ==> nonces[i] != nonces[j])
    && (forall j :: 0 <= j < |times| ==> MIN_INT64 <= times[j] <= MAX_INT64)
  }

  // The request under way can be delivered when it is stamped, and shares its
  // nonce with nothing used or in store.
  ghost predicate UnderWay(db: Db, id: int, a: Node, nonces: seq<string>) {
    a.phase != Idle && a.wire.AskSigned? ==>
      && ParseInt(a.wire.req.stamp).Some?
      && (id, a.wire.req.nonce) !in db.nonces && a.wire.req.nonce !in nonces
  }

  ghost predicate Stocked(sys: System, key: string, id: int, nonces: seq<string>, times: seq<int>)
    requires key in sys.nodes
  {
    Supplies(sys.server.db, id, nonces, times) && UnderWay(sys.server.db, id, sys.nodes[key], nonces)
  }

  // What the node does next; requests are delivered at the time they are
  // stamped with.
  function Next(key: string, a: Node, nonce: string, time: int): Event {
    if a.phase == Idle then Send(key, time, nonce, INFO)
    else if a.wire.Answer? then Receive(key, SMOOTH, time, nonce, INFO)
    else if a.wire.AskSigned? then Deliver(key, true, Stamp(a.wire.req), Stamp(a.wire.req))
    else Deliver(key, true, time, time)
  }

  lemma NextIsCalm(master: string, accepts: SettingsCheck, sys: System, key: string, id: int, g: Goal, start: Start,
                   beats: nat, nonces: seq<string>, times: seq<int>)
    requires CalmInv(master, accepts, sys, key, id, g, start, beats)
    requires nonces != [] && Stocked(sys, key, id, nonces, times)
    ensures var e := Next(key, sys.nodes[key], nonces[0], times[0]);
            Calm(master, sys, e, key, id) && Moves(sys, e, key)
  {
    hide FormatInt, ParseInt;
  }

  // What a node has to send it stamps and gives the nonce at hand.
  predicate Fresh(a: Node, time: int, nonce: string) {
    a.wire.AskSigned? ==> a.wire.req.stamp == FormatInt(time) && a.wire.req.nonce == nonce
  }

  lemma AskedFresh(key: string, a: Node, time: int, nonce: string)
    ensures Fresh(Asked(key, a, time, nonce, INFO), time, nonce)
  {
    hide FormatInt;
  }

  lemma ReceivedFresh(key: string, a: Node, accepts: SettingsCheck, time: int, nonce: string)
    requires a.wire.Answer? && a.phase != Idle
    ensures Fresh(Received(key, a, accepts, SMOOTH, time, nonce, INFO), time, nonce)
  {
    hide FormatInt, Valid, HostAfterServers, AfterHeartbeat;
  }

  lemma FreshIsUnderWay(a: Node, db: Db, id: int, nonces: seq<string>, times: seq<int>)
    requires nonces != [] && Supplies(db, id, nonces, times) && Fresh(a, times[0], nonces[0])
    ensures UnderWay(db, id, a, nonces[1..])
  {
    ParseFormat(times[0]);
    hide FormatInt, ParseInt;
  }

  lemma SentStocked(master: string, accepts: SettingsCheck, sys: System, key: string, id: int,
                    nonces: seq<string>, times: seq<int>)
    requires key in sys.nodes && nonces != [] && Stocked(sys, key, id, nonces, times)
    requires sys.nodes[key].phase == Idle || sys.nodes[key].wire.Answer?
    ensures var sys' := Do(master, accepts, sys, Next(key, sys.nodes[key], nonces[0], times[0]));
            key in sys'.nodes && Stocked(sys', key, id, nonces[1..], times[1..])
  {
    hide FormatInt, ParseInt;
    if sys.nodes[key].phase == Idle {
      AskedFresh(key, sys.nodes[key], times[0], nonces[0]);
    } else {
      ReceivedFresh(key, sys.nodes[key], accepts, times[0], nonces[0]);
    }
    var sys' := Do(master, accepts, sys, Next(key, sys.nodes[key], nonces[0], times[0]));
    FreshIsUnderWay(sys'.nodes[key], sys.server.db, id, nonces, times);
  }

  // Being processed uses up the request's own nonce alone.
  lemma NoncesUsed(master: string, accepts: SettingsCheck, sys: System, key: string, id: int, g: Goal, start: Start,
                   beats: nat, time: int)
    requires CalmInv(master, accepts, sys, key, id, g, start, beats)
    requires sys.nodes[key].phase != Idle && !sys.nodes[key].wire.Answer?
    requires sys.nodes[key].wire.AskSigned? ==>
               && ParseInt(sys.nodes[key].wire.req.stamp).Some?
               && (id, sys.nodes[key].wire.req.nonce) !in sys.server.db.nonces
    ensures var a, sys' := sys.nodes[key], Do(master, accepts, sys, Next(key, sys.nodes[key], "", time));
            && key in sys'.nodes && sys'.nodes[key].wire.Answer?
            && forall k :: k in sys'.server.db.nonces ==>
                 k in sys.server.db.nonces || (a.wire.AskSigned? && k == (id, a.wire.req.nonce))
  {
    hide FormatInt, ParseInt, TableInv;
    var a, s := sys.nodes[key], sys.server;
    if a.phase == AwaitEnroll {
      EnrollCalm(master, s, key, id, g, a.wire.req, Stamp(a.wire.req), Stamp(a.wire.req));
    } else if a.phase == AwaitHeartbeat {
      HeartbeatCalm(master, accepts, s, key, id, g, a.loop.acks, a.wire.req, Stamp(a.wire.req), Stamp(a.wire.req));
    }
  }

  lemma DeliveredStocked(master: string, accepts: SettingsCheck, sys: System, key: string, id: int, g: Goal,
                         start: Start, beats: nat, nonces: seq<string>, times: seq<int>)
    requires CalmInv(master, accepts, sys, key, id, g, start, beats)
    requires nonces != [] && Stocked(sys, key, id, nonces, times)
    requires sys.nodes[key].phase != Idle && !sys.nodes[key].wire.Answer?
    ensures var sys' := Do(master, accepts, sys, Next(key, sys.nodes[key], nonces[0], times[0]));
            key in sys'.nodes && Stocked(sys', key, id, nonces[1..], times[1..])
  {
    hide FormatInt, ParseInt, Do, CalmInv;
    NoncesUsed(master, accepts, sys, key, id, g, start, beats, times[0]);
  }

  // The next event is calm, moves the node, and leaves the supplies in order.
  lemma NextGoesOn(master: string, accepts: SettingsCheck, sys: System, key: string, id: int, g: Goal, start: Start,
                   beats: nat, nonces: seq<string>, times: seq<int>)
    requires CalmInv(master, accepts, sys, key, id, g, start, beats)
    requires nonces != [] && Stocked(sys, key, id, nonces, times)
    ensures var a := sys.nodes[key]; a.phase == Idle ==> !a.wire.Answer? && Next(key, a, nonces[0], times[0]).Send?
    ensures var e := Next(key, sys.nodes[key], nonces[0], times[0]);
            && Calm(master, sys, e, key, id) && Moves(sys, e, key)
            && var sys' := Do(master, accepts, sys, e);
               key in sys'.nodes && Stocked(sys', key, id, nonces[1..], times[1..])
  {
    hide FormatInt, ParseInt;
    NextIsCalm(master, accepts, sys, key, id, g, start, beats, nonces, times);
    if sys.nodes[key].phase == Idle || sys.nodes[key].wire.Answer? {
      SentStocked(master, accepts, sys, key, id, nonces, times);
    } else {
      DeliveredStocked(master, accepts, sys, key, id, g, start, beats, nonces, times);
    }
  }

  // ---------- The clock in such a run ----------

  predicate Between(low: int, t: int, high: int) { low <= t <= high }

  // The request under way is stamped in time.
  predicate StampedBetween(a: Node, low: int, high: int) {
    a.phase != Idle && a.wire.AskSigned? ==> Between(low, Stamp(a.wire.req), high)
  }

  predicate DeliveredBetween(e: Event, low: int, high: int) {
    e.Deliver? ==> e.verifyAt == e.commitAt && Between(low, e.verifyAt, high)
  }

  // Deliveries and stamps stay in time, if the agent's clock does.
  ghost predicate OnTime(sys: System, events: seq<Event>, last: System, key: string, low: int, high: int)
    requires key in last.nodes
  {
    && (forall i :: 0 <= i < |events| ==> DeliveredBetween(events[i], low, high))
    && (forall x :: x in last.sent ==> x in sys.sent || Between(low, Stamp(x.req), high))
    && StampedBetween(last.nodes[key], low, high)
  }

  lemma FreshStamped(a: Node, time: int, nonce: string)
    requires Fresh(a, time, nonce) && MIN_INT64 <= time <= MAX_INT64
    ensures a.wire.AskSigned? ==> Stamp(a.wire.req) == time
  {
    ParseFormat(time);
    hide FormatInt, ParseInt;
  }

  lemma NextOnTime(master: string, accepts: SettingsCheck, sys: System, events: seq<Event>, last: System, key: string,
                   nonce: string, time: int, low: int, high: int)
    requires key in last.nodes && OnTime(sys, events, last, key, low, high)
    requires Between(low, time, high) && MIN_INT64 <= time <= MAX_INT64
    requires last.nodes[key].wire.Answer? ==> last.nodes[key].phase != Idle
    requires key in Do(master, accepts, last, Next(key, last.nodes[key], nonce, time)).nodes
    ensures var e := Next(key, last.nodes[key], nonce, time);
            Moves(last, e, key) && (last.nodes[key].phase == Idle ==> e.Send?) ==>
              OnTime(sys, events + [e], Do(master, accepts, last, e), key, low, high)
  {
    hide FormatInt, ParseInt, Stamp, Received, Asked, Fresh;
    var a := last.nodes[key];
    AskedFresh(key, a, time, nonce);
    FreshStamped(Asked(key, a, time, nonce, INFO), time, nonce);
    if a.wire.Answer? {
      ReceivedFresh(key, a, accepts, time, nonce);
      FreshStamped(Received(key, a, accepts, SMOOTH, time, nonce, INFO), time, nonce);
    }
  }

  lemma RunExtended(master: string, accepts: SettingsCheck, sys: System, events: seq<Event>, e: Event, key: string,
                    id: int)
    requires CalmRun(master, accepts, sys, events, key, id)
    requires var mid := DoAll(master, accepts, sys, events); Calm(master, mid, e, key, id) && Moves(mid, e, key)
    ensures CalmRun(master, accepts, sys, events + [e], key, id)
    ensures CountMoves(master, accepts, sys, events + [e], key) == CountMoves(master, accepts, sys, events, key) + 1
    ensures DoAll(master, accepts, sys, events + [e]) == Do(master, accepts, DoAll(master, accepts, sys, events), e)
  {
    assert (events + [e])[..|events|] == events;
  }

  predicate NoneOutside(events: seq<Event>) { forall i :: 0 <= i < |events| ==> !events[i].Outside? }

  // A calm run of n steps of the node's own, with supplies left.
  ghost predicate Reached(master: string, accepts: SettingsCheck, sys: System, events: seq<Event>, key: string, id: int,
                          n: nat, nonces: seq<string>, times: seq<int>, low: int, high: int)
  {
    var last := DoAll(master, accepts, sys, events);
    && CalmRun(master, accepts, sys, events, key, id) && CountMoves(master, accepts, sys, events, key) == n
    && key in last.nodes && Stocked(last, key, id, nonces, times) && NoneOutside(events)
    && OnTime(sys, events, last, key, low, high) && forall j :: 0 <= j < |times| ==> Between(low, times[j], high)
  }

  lemma OneMoreStep(master: string, accepts: SettingsCheck, sys: System, events: seq<Event>, key: string, id: int,
                    g: Goal, start: Start, n: nat, nonces: seq<string>, times: seq<int>, low: int, high: int)
    returns (e: Event)
    requires CalmInv(master, accepts, sys, key, id, g, start, 0) && nonces != []
    requires Reached(master, accepts, sys, events, key, id, n, nonces, times, low, high)
    ensures Reached(master, accepts, sys, events + [e], key, id, n + 1, nonces[1..], times[1..], low, high)
  {
    hide FormatInt, ParseInt, CalmInv, CalmRun, CountMoves, Do, DoAll, Calm, Moves, OnTime, UnderWay;
    CalmRunKept(master, accepts, sys, events, key, id, g, start);
    var last := DoAll(master, accepts, sys, events);
    NextGoesOn(master, accepts, last, key, id, g, start, CountBeats(master, accepts, sys, events, key), nonces, times);
    e := Next(key, last.nodes[key], nonces[0], times[0]);
    RunExtended(master, accepts, sys, events, e, key, id);
    NextOnTime(master, accepts, sys, events, last, key, nonces[0], times[0], low, high);
  }

  // From every state on course, and for any supplies, there is a calm run of as
  // many steps of the node's own, as punctual as the agent's clock.
  lemma CalmRunFrom(master: string, accepts: SettingsCheck, sys: System, key: string, id: int, g: Goal, start: Start,
                    nonces: seq<string>, times: seq<int>, low: int, high: int) returns (events: seq<Event>)
    requires CalmInv(master, accepts, sys, key, id, g, start, 0) && Stocked(sys, key, id, nonces, times)
    requires StampedBetween(sys.nodes[key], low, high) && forall j :: 0 <= j < |times| ==> Between(low, times[j], high)
    ensures CalmRun(master, accepts, sys, events, key, id) && NoneOutside(events)
    ensures CountMoves(master, accepts, sys, events, key) == |nonces|
    ensures var last := DoAll(master, accepts, sys, events);
            key in last.nodes && OnTime(sys, events, last, key, low, high)
  {
    events := [];
    for k := 0 to |nonces|
      invariant Reached(master, accepts, sys, events, key, id, k, nonces[k..], times[k..], low, high)
    {
      var e := OneMoreStep(master, accepts, sys, events, key, id, g, start, k, nonces[k..], times[k..], low, high);
      events := events + [e];
      assert nonces[k..][1..] == nonces[k + 1..] && times[k..][1..] == times[k + 1..];
    }
  }

  // From every ready state there is a calm run of any number of steps.
  lemma CalmRunExists(master: string, accepts: SettingsCheck, sys: System, key: string, id: int,
                      nonces: seq<string>, times: seq<int>) returns (events: seq<Event>)
    requires Ready(master, accepts, sys, key, id) && Supplies(sys.server.db, id, nonces, times)
    ensures CalmRun(master, accepts, sys, events, key, id) && NoneOutside(events)
    ensures CountMoves(master, accepts, sys, events, key) == |nonces|
  {
    ReadyIsCalm(master, accepts, sys, key, id);
    events := CalmRunFrom(master, accepts, sys, key, id, GoalOf(master, sys.server.db, id), StartOf(sys.nodes[key]),
                          nonces, times, MIN_INT64, MAX_INT64);
  }

  // And so one of ten steps, which ends with both sides agreed.
  lemma AgreementIsReachable(master: string, accepts: SettingsCheck, sys: System, key: string, id: int,
                             nonces: seq<string>, times: seq<int>) returns (events: seq<Event>)
    requires Ready(master, accepts, sys, key, id) && Supplies(sys.server.db, id, nonces, times) && |nonces| == 10
    ensures CalmRun(master, accepts, sys, events, key, id) && CountMoves(master, accepts, sys, events, key) == 10
    ensures var last := DoAll(master, accepts, sys, events);
            && SameTerms(sys.server.db, last.server.db, id) && key in last.nodes
            && last.server.db.devices[id].appliedPolicy == last.server.db.settings.version
            && PasswordSynced(last.server.db, id)
            && last.nodes[key].loop.host.servers == last.server.db.settings.servers
            && (sys.nodes[key].loop.acks.passwordVersion != CredVersion(sys.server.db, id) ==>
                  InStep(master, last, key, id))
  {
    events := CalmRunExists(master, accepts, sys, key, id, nonces, times);
    TenStepsAreEnough(master, accepts, sys, events, key, id);
    TwoHeartbeatsSettle(master, accepts, sys, events, key, id);
  }

  // ---------- Getting known ----------

  const FIRST_NONCE := "mmmmmmmmmmmmmmmm"

  // No device is known yet, and the settings have been chosen.
  ghost predicate Blank(db: Db, servers: Servers) {
    && db.devices == map[] && db.auth == map[] && db.creds == map[] && db.nonces == map[]
    && db.settings.servers == servers && db.settings.version >= 1
  }

  lemma SettingsChosen(master: string, accepts: SettingsCheck, first: System, servers: Servers)
    requires first.server == FIRST
    ensures var sys := Do(master, accepts, first, Outside(PutSettings(servers, true, 0)));
            Blank(sys.server.db, servers) && sys.nodes == first.nodes && sys.sent == first.sent
  {
  }

  lemma BlankMeetsInv(master: string, db: Db, servers: Servers)
    requires Blank(db, servers)
    ensures TableInv(master, db)
  {
  }

  // Asking for settings.
  lemma SettingsAsked(master: string, accepts: SettingsCheck, sys: System, key: string, time: int, nonce: string)
    requires key in sys.nodes && FreshNode(sys.nodes[key])
    ensures var sys' := Do(master, accepts, sys, Send(key, time, nonce, INFO));
            && sys'.server == sys.server && sys'.sent == sys.sent && key in sys'.nodes
            && sys'.nodes[key] == sys.nodes[key].(phase := AwaitBootstrap, wire := AskBootstrap)
  {
  }

  lemma SettingsTold(master: string, accepts: SettingsCheck, sys: System, key: string, now: int)
    requires TableInv(master, sys.server.db) && accepts(sys.server.db.settings.servers)
    requires key in sys.nodes && sys.nodes[key].phase == AwaitBootstrap && sys.nodes[key].wire == AskBootstrap
    ensures var sys' := Do(master, accepts, sys, Deliver(key, true, now, now));
            && sys'.server.db == sys.server.db && sys'.sent == sys.sent && key in sys'.nodes
            && sys'.nodes[key] == sys.nodes[key].(wire := sys'.nodes[key].wire)
            && sys'.nodes[key].wire.Answer? && sys'.nodes[key].wire.reply.Published?
            && var p := sys'.nodes[key].wire.reply.policy;
               Valid(p, accepts) && p.policyVersion == sys.server.db.settings.version
  {
    RepliesAreClientValid(master, sys.server.db, Bootstrap(true, now), accepts);
  }

  // A node's first enrollment.
  predicate Opening(req: Request, key: string, uuid: string, time: int, nonce: string) {
    req.stamp == FormatInt(time) && req.nonce == nonce && SoundEnrollment(key, uuid, req)
  }

  // The node about to enroll: nothing acknowledged but the settings.
  predicate Enrolling(key: string, a: Node, uuid: string, version: nat) {
    && a.phase == AwaitEnroll && a.uuid == uuid && !a.loop.enrolled && a.loop.acks == Acks(version, 0)
  }

  lemma SettingsReceived(master: string, accepts: SettingsCheck, sys: System, key: string, time: int, nonce: string)
    requires |key| == KEY_SIZE && key in sys.nodes && ValidUuid(sys.nodes[key].uuid) && GoodNonce(nonce)
    requires var a := sys.nodes[key];
             && a.phase == AwaitBootstrap && !a.loop.enrolled && a.loop.acks == NO_ACKS
             && a.wire.Answer? && a.wire.reply.Published? && Valid(a.wire.reply.policy, accepts)
    ensures var sys', a := Do(master, accepts, sys, Receive(key, SMOOTH, time, nonce, INFO)), sys.nodes[key];
            && sys'.server == sys.server && key in sys'.nodes
            && Enrolling(key, sys'.nodes[key], a.uuid, a.wire.reply.policy.policyVersion)
            && sys'.nodes[key].loop.host.password == a.loop.host.password
            && sys'.nodes[key].wire.AskSigned? && Opening(sys'.nodes[key].wire.req, key, a.uuid, time, nonce)
            && sys'.sent == sys.sent + {Sent(sys'.nodes[key].wire.req, sys'.nodes[key].epoch)}
  {
    hide FormatInt;
  }

  // The first device, enrolled under the key.
  ghost predicate Known(db: Db, key: string, uuid: string, servers: Servers, version: nat) {
    && 1 in db.devices && db.devices[1].uuid == uuid && db.devices[1].status == Pending
    && db.auth == map[1 := key] && db.creds == map[] && db.nonces.Keys == {(1, FIRST_NONCE)}
    && db.settings == Settings(servers, version)
  }

  lemma FirstEnrolled(master: string, s: Server, key: string, uuid: string, servers: Servers, req: Request)
    requires Blank(s.db, servers) && Opening(req, key, uuid, 0, FIRST_NONCE)
    ensures var op := Enroll(true, req, 0, 0);
            && ReplyTo(master, s, op).Enrolled?
            && Known(Step(master, s, op).db, key, uuid, servers, s.db.settings.version)
  {
    ParseFormat(0);
    GenuineIsVerified(key, ENROLL_PATH, req, 0);
    assert FindDevice(s.db, uuid).None?;
    assert s.db.devices.Keys == {};
    EnrollStep(master, s, Enroll(true, req, 0, 0));
  }

  lemma EnrollmentAnswered(master: string, accepts: SettingsCheck, sys: System, key: string, servers: Servers,
                           version: nat)
    requires Blank(sys.server.db, servers) && sys.server.db.settings.version == version && key in sys.nodes
    requires var a := sys.nodes[key];
             && Enrolling(key, a, a.uuid, version)
             && a.wire.AskSigned? && Opening(a.wire.req, key, a.uuid, 0, FIRST_NONCE)
    ensures var sys', a := Do(master, accepts, sys, Deliver(key, true, 0, 0)), sys.nodes[key];
            && Known(sys'.server.db, key, a.uuid, servers, version) && key in sys'.nodes
            && Enrolling(key, sys'.nodes[key], a.uuid, version)
            && sys'.nodes[key].wire.Answer? && sys'.nodes[key].wire.reply.Enrolled? && sys'.sent == sys.sent
  {
    FirstEnrolled(master, sys.server, key, sys.nodes[key].uuid, servers, sys.nodes[key].wire.req);
  }

  lemma DeviceApprovedFirst(master: string, s: Server, key: string, uuid: string, servers: Servers, version: nat,
                            seed: Seed, sealNonce: SealNonce)
    requires Known(s.db, key, uuid, servers, version)
    ensures var db := Step(master, s, Approve(1, seed, sealNonce, 0)).db;
            && 1 in db.devices && db.devices[1].uuid == uuid && db.devices[1].status == Approved
            && db.auth == s.db.auth && db.nonces == s.db.nonces && db.settings == s.db.settings
            && 1 in db.creds && db.creds[1].version == 1 && Opened(master, db, 1) == Some(Encode(seed))
  {
    ActionStep(master, s, Approve(1, seed, sealNonce, 0));
  }

  lemma Approval(master: string, accepts: SettingsCheck, sys: System, key: string, uuid: string, servers: Servers,
                 version: nat, seed: Seed, sealNonce: SealNonce)
    requires Known(sys.server.db, key, uuid, servers, version)
    ensures var sys' := Do(master, accepts, sys, Outside(Approve(1, seed, sealNonce, 0)));
            && sys'.server == Step(master, sys.server, Approve(1, seed, sealNonce, 0))
            && sys'.nodes == sys.nodes && sys'.sent == sys.sent
  {
  }

  // ---------- Runs put together ----------

  lemma OneEvent(master: string, accepts: SettingsCheck, first: System, events: seq<Event>, e: Event)
    requires WithinEpochs(master, accepts, first, events) && (e.Outside? ==> !FromAgent(e.op))
    ensures WithinEpochs(master, accepts, first, events + [e])
    ensures DoAll(master, accepts, first, events + [e]) == Do(master, accepts, DoAll(master, accepts, first, events), e)
  {
    assert (events + [e])[..|events|] == events;
  }

  lemma {:induction false} MoreEvents(master: string, accepts: SettingsCheck, first: System, past: seq<Event>,
                                      events: seq<Event>)
    requires WithinEpochs(master, accepts, first, past) && NoneOutside(events)
    ensures WithinEpochs(master, accepts, first, past + events)
    ensures DoAll(master, accepts, first, past + events)
         == DoAll(master, accepts, DoAll(master, accepts, first, past), events)
    decreases |events|
  {
    if events == [] {
      assert past + events == past;
    } else {
      var before, e := events[..|events| - 1], events[|events| - 1];
      MoreEvents(master, accepts, first, past, before);
      OneEvent(master, accepts, first, past + before, e);
      assert past + events == (past + before) + [e];
    }
  }

  // Settings, approvals and deliveries at time 0.
  predicate AtZero(e: Event) {
    && (e.Outside? ==> (e.op.PutSettings? || e.op.Approve?) && e.op.now == 0)
    && (e.Deliver? ==> e.verifyAt == e.commitAt == 0)
  }

  // Settings, the question for them, its answer, the enrollment, and its answer.
  ghost function Introductions(master: string, accepts: SettingsCheck, first: System, key: string,
                               servers: Servers): System {
    var chosen := Do(master, accepts, first, Outside(PutSettings(servers, true, 0)));
    var told := Do(master, accepts, Do(master, accepts, chosen, Send(key, 0, FIRST_NONCE, INFO)),
                   Deliver(key, true, 0, 0));
    Do(master, accepts, Do(master, accepts, told, Receive(key, SMOOTH, 0, FIRST_NONCE, INFO)), Deliver(key, true, 0, 0))
  }

  ghost predicate Enlisted(sys: System, key: string, uuid: string, servers: Servers) {
    && key in sys.nodes && Known(sys.server.db, key, uuid, servers, sys.server.db.settings.version)
    && Enrolling(key, sys.nodes[key], uuid, sys.server.db.settings.version)
    && sys.nodes[key].wire.Answer? && sys.nodes[key].wire.reply.Enrolled?
    && exists x :: sys.sent == {x} && Opening(x.req, key, uuid, 0, FIRST_NONCE)
  }

  lemma GettingEnlisted(master: string, accepts: SettingsCheck, first: System, key: string, servers: Servers)
    requires Initial(first) && key in first.nodes && accepts(servers)
    requires |key| == KEY_SIZE && ValidUuid(first.nodes[key].uuid)
    ensures Enlisted(Introductions(master, accepts, first, key, servers), key, first.nodes[key].uuid, servers)
  {
    hide FormatInt, ParseInt, SoundEnrollment, Valid, Do, TableInv;
    var s1 := Do(master, accepts, first, Outside(PutSettings(servers, true, 0)));
    SettingsChosen(master, accepts, first, servers);
    var s2 := Do(master, accepts, s1, Send(key, 0, FIRST_NONCE, INFO));
    SettingsAsked(master, accepts, s1, key, 0, FIRST_NONCE);
    var s3 := Do(master, accepts, s2, Deliver(key, true, 0, 0));
    BlankMeetsInv(master, s2.server.db, servers);
    SettingsTold(master, accepts, s2, key, 0);
    var s4 := Do(master, accepts, s3, Receive(key, SMOOTH, 0, FIRST_NONCE, INFO));
    SettingsReceived(master, accepts, s3, key, 0, FIRST_NONCE);
    assert s4.sent == {Sent(s4.nodes[key].wire.req, s4.nodes[key].epoch)};
    EnrollmentAnswered(master, accepts, s4, key, servers, s1.server.db.settings.version);
  }

  // From an empty control plane: settings, enrollment and approval.
  lemma GettingKnown(master: string, accepts: SettingsCheck, first: System, key: string, servers: Servers,
                     seed: Seed, sealNonce: SealNonce) returns (events: seq<Event>)
    requires Initial(first) && key in first.nodes && accepts(servers)
    requires |key| == KEY_SIZE && ValidUuid(first.nodes[key].uuid)
    ensures WithinEpochs(master, accepts, first, events)
    ensures var sys := DoAll(master, accepts, first, events);
            && key in sys.nodes && Introduced(master, sys, key, first.nodes[key].uuid, servers, Encode(seed))
            && (exists x :: sys.sent == {x} && Opening(x.req, key, first.nodes[key].uuid, 0, FIRST_NONCE))
    ensures forall i :: 0 <= i < |events| ==> AtZero(events[i])
  {
    var approval := Outside(Approve(1, seed, sealNonce, 0));
    GettingEnlisted(master, accepts, first, key, servers);
    GettingApproved(master, accepts, Introductions(master, accepts, first, key, servers), key, first.nodes[key].uuid,
                    servers, seed, sealNonce);
    events := SixEvents(master, accepts, first, key, servers, approval);
  }

  lemma GettingApproved(master: string, accepts: SettingsCheck, sys: System, key: string, uuid: string,
                        servers: Servers, seed: Seed, sealNonce: SealNonce)
    requires Enlisted(sys, key, uuid, servers)
    ensures var sys' := Do(master, accepts, sys, Outside(Approve(1, seed, sealNonce, 0)));
            && key in sys'.nodes && Introduced(master, sys', key, uuid, servers, Encode(seed)) && sys'.sent == sys.sent
  {
    var version := sys.server.db.settings.version;
    Approval(master, accepts, sys, key, uuid, servers, version, seed, sealNonce);
    DeviceApprovedFirst(master, sys.server, key, uuid, servers, version, seed, sealNonce);
  }

  lemma SixEvents(master: string, accepts: SettingsCheck, first: System, key: string, servers: Servers, last: Event)
    returns (events: seq<Event>)
    requires AtZero(last)
    ensures WithinEpochs(master, accepts, first, events)
    ensures DoAll(master, accepts, first, events)
         == Do(master, accepts, Introductions(master, accepts, first, key, servers), last)
    ensures forall i :: 0 <= i < |events| ==> AtZero(events[i])
  {
    var e1, e2, e3 := Outside(PutSettings(servers, true, 0)), Send(key, 0, FIRST_NONCE, INFO), Deliver(key, true, 0, 0);
    var e4 := Receive(key, SMOOTH, 0, FIRST_NONCE, INFO);
    OneEvent(master, accepts, first, [], e1);
    OneEvent(master, accepts, first, [] + [e1], e2);
    OneEvent(master, accepts, first, [] + [e1] + [e2], e3);
    OneEvent(master, accepts, first, [] + [e1] + [e2] + [e3], e4);
    OneEvent(master, accepts, first, [] + [e1] + [e2] + [e3] + [e4], e3);
    OneEvent(master, accepts, first, [] + [e1] + [e2] + [e3] + [e4] + [e3], last);
    events := [] + [e1] + [e2] + [e3] + [e4] + [e3] + [last];
  }

  // The first device approved, its node about to learn that it is enrolled.
  ghost predicate Introduced(master: string, sys: System, key: string, uuid: string, servers: Servers, password: string)
    requires key in sys.nodes
  {
    var db, a := sys.server.db, sys.nodes[key];
    && 1 in db.devices && db.devices[1].uuid == uuid && db.devices[1].status == Approved
    && Registered(sys.server, key, 1) && db.nonces.Keys == {(1, FIRST_NONCE)} && db.settings.servers == servers
    && 1 in db.creds && db.creds[1].version == 1 && Opened(master, db, 1) == Some(password)
    && Enrolling(key, a, uuid, db.settings.version) && a.wire.Answer? && a.wire.reply.Enrolled?
  }

  lemma IntroducedIsCalm(master: string, accepts: SettingsCheck, sys: System, key: string, uuid: string,
                         servers: Servers, password: string)
    requires SystemInv(master, sys) && key in sys.nodes && Introduced(master, sys, key, uuid, servers, password)
    requires accepts(servers) && |key| == KEY_SIZE && ValidUuid(uuid)
    ensures var db := sys.server.db;
            CalmInv(master, accepts, sys, key, 1, Goal(uuid, db.settings, db.creds[1], password),
                    StartOf(sys.nodes[key]), 0)
    ensures sys.nodes[key].wire.Answer?
  {
    forall k | k in sys.nodes && k != key ensures Shape(k, sys.nodes[k]) {
      assert NodeInv(sys.server, k, sys.nodes[k]);
    }
  }

  // Nonces for a run from the beginning, told apart by their last letter.
  function NonceOf(k: nat): (nonce: string)
    requires k < 20
    ensures GoodNonce(nonce) && |nonce| == 16 && nonce[15] as int == 'A' as int + k && nonce != FIRST_NONCE
  {
    "nnnnnnnnnnnnnnn" + [('A' as int + k) as char]
  }

  lemma FreshNonces(n: nat) returns (nonces: seq<string>, times: seq<int>)
    requires n < 20
    ensures |nonces| == n && FIRST_NONCE !in nonces && times == seq(n, i => 0)
    ensures forall db: Db, id: int :: db.nonces.Keys <= {(id, FIRST_NONCE)} ==> Supplies(db, id, nonces, times)
  {
    nonces, times := seq(n, i requires 0 <= i < n => NonceOf(i)), seq(n, i => 0);
    forall i, j | 0 <= i < j < n ensures nonces[i] != nonces[j] {
      assert nonces[i][15] != nonces[j][15];
    }
  }

  // ---------- Main result ----------

  lemma FromIntroduction(master: string, accepts: SettingsCheck, sys: System, key: string, uuid: string,
                         servers: Servers, password: string) returns (more: seq<Event>)
    requires SystemInv(master, sys) && key in sys.nodes && Introduced(master, sys, key, uuid, servers, password)
    requires accepts(servers) && |key| == KEY_SIZE && ValidUuid(uuid)
    ensures NoneOutside(more)
    ensures var last := DoAll(master, accepts, sys, more);
            && InStep(master, last, key, 1) && Registered(last.server, key, 1)
            && last.server.db.settings.servers == servers && last.nodes[key].loop.host.password == password
  {
    IntroducedIsCalm(master, accepts, sys, key, uuid, servers, password);
    var g := Goal(uuid, sys.server.db.settings, sys.server.db.creds[1], password);
    var nonces, times := FreshNonces(10);
    more := CalmRunFrom(master, accepts, sys, key, 1, g, StartOf(sys.nodes[key]), nonces, times, 0, 0);
    CalmRunKept(master, accepts, sys, more, key, 1, g, StartOf(sys.nodes[key]));
  }

  // For any key, any acceptable settings and any password drawn, there is a run
  // from an empty control plane that ends with both sides in step and with that
  // password installed.
  lemma EndToEnd(master: string, accepts: SettingsCheck, first: System, key: string, servers: Servers,
                 seed: Seed, sealNonce: SealNonce) returns (events: seq<Event>)
    requires Initial(first) && key in first.nodes && accepts(servers)
    requires |key| == KEY_SIZE && ValidUuid(first.nodes[key].uuid)
    ensures WithinEpochs(master, accepts, first, events)
    ensures var last := DoAll(master, accepts, first, events);
            && InStep(master, last, key, 1) && Registered(last.server, key, 1)
            && last.server.db.settings.servers == servers
            && last.nodes[key].loop.host.password == Encode(seed)
  {
    hide *;
    var past := GettingKnown(master, accepts, first, key, servers, seed, sealNonce);
    var sys := DoAll(master, accepts, first, past);
    ReachableSystem(master, accepts, first, past);
    var more := FromIntroduction(master, accepts, sys, key, first.nodes[key].uuid, servers, Encode(seed));
    MoreEvents(master, accepts, first, past, more);
    events := past + more;
  }
}
