// Requests sent again after a reset lead the tables astray when the device is
// reset, or approved anew, early enough: the delays that keep them true are
// exact.
module Astray {
  import opened Text
  import opened Tokens
  import opened Schema
  import opened Messages
  import opened Handlers
  import opened Runs
  import opened ReplayGuard
  import opened AgentLoop
  import opened Management
  import opened Truth
  import opened Convergence
  import opened FirstContact
  import opened Resets

  // ---------- The system at rest ----------

  const SECOND_NONCE := "pppppppppppppppp"
  const THIRD_NONCE := "qqqqqqqqqqqqqqqq"
  const SEAL: SealNonce := "000000000000"

  // Device 1 and its node in step, the node between two rounds, and its first
  // enrollment for anyone to send again.
  ghost predicate AtRest(master: string, sys: System, key: string, uuid: string, password: string, req: Request) {
    && InStep(master, sys, key, 1) && Registered(sys.server, key, 1) && Inv(master, sys.server)
    && |key| == KEY_SIZE && ValidUuid(uuid) && sys.server.db.devices[1].uuid == uuid
    && Holding(sys, key, uuid, sys.server.db.settings.version, password)
    && Opening(req, key, uuid, 0, FIRST_NONCE) && (exists x :: x in sys.sent && x.req == req)
    && forall x :: x in sys.sent ==> Stamp(x.req) == 0
  }

  // A node between two rounds that holds the first password of some epoch.
  ghost predicate Holding(sys: System, key: string, uuid: string, version: nat, password: string) {
    && key in sys.nodes && sys.nodes[key].uuid == uuid && sys.nodes[key].phase == Idle && sys.nodes[key].loop.enrolled
    && sys.nodes[key].loop.acks == Acks(version, 1) && sys.nodes[key].loop.host.password == password
  }

  // ---------- The control plane forgets, and learns again ----------

  ghost predicate Forgotten(master: string, s: Server, uuid: string, version: nat) {
    && Inv(master, s) && s.db.settings.version == version
    && 1 in s.db.devices && s.db.devices[1].uuid == uuid && s.db.devices[1].status == Pending
    && 1 !in s.db.creds && 1 !in s.db.auth && forall k :: k in s.db.nonces ==> k.0 != 1
  }

  // Known again by an enrollment with this nonce.
  ghost predicate KnownAgain(master: string, s: Server, key: string, uuid: string, version: nat, nonce: string) {
    && Inv(master, s) && s.db.settings.version == version
    && 1 in s.db.devices && s.db.devices[1].uuid == uuid && s.db.devices[1].status == Pending
    && 1 !in s.db.creds && Registered(s, key, 1) && forall k :: k in s.db.nonces && k.0 == 1 ==> k.1 == nonce
  }

  ghost predicate ApprovedAnew(master: string, s: Server, key: string, uuid: string, version: nat, password: string,
                               nonce: string)
  {
    && Inv(master, s) && s.db.settings.version == version
    && 1 in s.db.devices && s.db.devices[1].uuid == uuid && s.db.devices[1].status == Approved && Registered(s, key, 1)
    && 1 in s.db.creds && s.db.creds[1].version == 1 && Opened(master, s.db, 1) == Some(password)
    && forall k :: k in s.db.nonces && k.0 == 1 ==> k.1 == nonce
  }

  lemma ResetForgets(master: string, s: Server, key: string, uuid: string, now: int)
    requires Inv(master, s) && Registered(s, key, 1) && 1 in s.db.devices && s.db.devices[1].uuid == uuid
    ensures Forgotten(master, Step(master, s, Reset(1, now)), uuid, s.db.settings.version)
    ensures Step(master, s, Reset(1, now)).db.settings == s.db.settings
  {
    KeptByStep(master, s, Reset(1, now));
    ActionStep(master, s, Reset(1, now));
  }

  lemma EnrolledAgain(master: string, s: Server, key: string, uuid: string, version: nat, req: Request, time: int,
                      nonce: string, verifyAt: int, commitAt: int)
    requires Forgotten(master, s, uuid, version) && Opening(req, key, uuid, time, nonce)
    requires MIN_INT64 <= time <= MAX_INT64 && time <= verifyAt <= time + 300
    ensures var op := Enroll(true, req, verifyAt, commitAt);
            && KnownAgain(master, Step(master, s, op), key, uuid, version, nonce)
            && Step(master, s, op).db.settings == s.db.settings && ReplyTo(master, s, op).Enrolled?
  {
    hide FormatInt, ParseInt, Inv;
    FrameOf(master, s);
    EnrollsAgain(master, s, key, uuid, req, time, nonce, verifyAt, commitAt);
    KeptByStep(master, s, Enroll(true, req, verifyAt, commitAt));
  }

  lemma EnrollsAgain(master: string, s: Server, key: string, uuid: string, req: Request, time: int, nonce: string,
                     verifyAt: int, commitAt: int)
    requires Constraints(s.db) && 1 in s.db.devices && s.db.devices[1].uuid == uuid && 1 !in s.db.auth
    requires forall k :: k in s.db.nonces ==> k.0 != 1
    requires Opening(req, key, uuid, time, nonce)
    requires MIN_INT64 <= time <= MAX_INT64 && time <= verifyAt <= time + 300
    ensures var op := Enroll(true, req, verifyAt, commitAt);
            && Step(master, s, op).db == EnrollEffect(s.db, 1, req, commitAt)
            && req.body.publicKey == Some(key) && ReplyTo(master, s, op).Enrolled?
  {
    hide FormatInt, ParseInt, WellFormedEnrollment, Verified, Constraints;
    OpeningIsSigned(req, key, uuid, time, nonce, verifyAt);
    FindDeviceUnique(s.db, uuid, 1);
    EnrollStep(master, s, Enroll(true, req, verifyAt, commitAt));
  }

  lemma OpeningIsSigned(req: Request, key: string, uuid: string, time: int, nonce: string, verifyAt: int)
    requires Opening(req, key, uuid, time, nonce)
    requires MIN_INT64 <= time <= MAX_INT64 && time <= verifyAt <= time + 300
    ensures WellFormedEnrollment(req.body) && EnrollmentSigned(req, verifyAt)
  {
    ParseFormat(time);
    hide FormatInt, ParseInt, WellFormedEnrollment;
    GenuineIsVerified(key, ENROLL_PATH, req, verifyAt);
  }

  lemma ApprovedAgain(master: string, s: Server, key: string, uuid: string, version: nat, nonce: string, seed: Seed,
                      now: int)
    requires KnownAgain(master, s, key, uuid, version, nonce)
    ensures var op := Approve(1, seed, SEAL, now);
            ApprovedAnew(master, Step(master, s, op), key, uuid, version, Encode(seed), nonce)
  {
    hide FormatInt;
    KeptByStep(master, s, Approve(1, seed, SEAL, now));
    ActionStep(master, s, Approve(1, seed, SEAL, now));
  }

  // The old password's version is taken for the new one's.
  lemma BeatMisleads(master: string, s: Server, key: string, uuid: string, version: nat, password: string,
                     nonce: string, req: Request, time: int, verifyAt: int, commitAt: int)
    requires ApprovedAnew(master, s, key, uuid, version, password, nonce) && req.nonce != nonce
    requires SoundHeartbeat(key, uuid, Acks(version, 1), req) && req.stamp == FormatInt(time)
    requires MIN_INT64 <= time <= MAX_INT64 && time <= verifyAt <= time + 300
    ensures var s' := Step(master, s, Heartbeat(req, verifyAt, commitAt));
            && 1 in s'.db.devices && Registered(s', key, 1) && PasswordSynced(s'.db, 1)
            && 1 in s'.db.creds && Opened(master, s'.db, 1) == Some(password)
  {
    hide FormatInt, ParseInt;
    var op := Heartbeat(req, verifyAt, commitAt);
    FrameOf(master, s);
    BeatenAgain(master, s, key, uuid, version, password, req, time, verifyAt, commitAt);
    OpenedAlone(master, s.db, Step(master, s, op).db, 1);
  }

  lemma BeatenAgain(master: string, s: Server, key: string, uuid: string, version: nat, password: string, req: Request,
                    time: int, verifyAt: int, commitAt: int)
    requires Constraints(s.db) && s.db.settings.version == version
    requires 1 in s.db.devices && s.db.devices[1].uuid == uuid && s.db.devices[1].status == Approved
    requires Registered(s, key, 1) && 1 in s.db.creds && s.db.creds[1].version == 1
    requires Opened(master, s.db, 1) == Some(password) && (1, req.nonce) !in s.db.nonces
    requires SoundHeartbeat(key, uuid, Acks(version, 1), req) && req.stamp == FormatInt(time)
    requires MIN_INT64 <= time <= MAX_INT64 && time <= verifyAt <= time + 300
    ensures Step(master, s, Heartbeat(req, verifyAt, commitAt)).db == HeartbeatEffect(s.db, 1, req, commitAt)
  {
    ParseFormat(time);
    hide FormatInt, ParseInt, WellFormedHeartbeat, Verified, Constraints;
    GenuineIsVerified(key, HEARTBEAT_PATH, req, verifyAt);
    FindDeviceUnique(s.db, uuid, 1);
    HeartbeatStep(master, s, Heartbeat(req, verifyAt, commitAt));
  }

  // ---------- The node reports what it holds ----------

  lemma StillReports(master: string, accepts: SettingsCheck, sys: System, key: string, uuid: string, version: nat,
                     password: string, time: int)
    requires Holding(sys, key, uuid, version, password) && |key| == KEY_SIZE
    ensures var sys' := Do(master, accepts, sys, Send(key, time, SECOND_NONCE, INFO));
            && sys'.server == sys.server && key in sys'.nodes && sys'.nodes[key].loop == sys.nodes[key].loop
            && sys'.nodes[key].uuid == uuid && sys'.nodes[key].phase == AwaitHeartbeat
            && sys'.nodes[key].wire.AskSigned? && sys'.sent == sys.sent + Outgoing(sys'.nodes[key])
            && Report(sys'.nodes[key].wire.req, key, uuid, version, time)
  {
    hide FormatInt;
    InfoBounds(INFO);
  }

  predicate Report(req: Request, key: string, uuid: string, version: nat, time: int) {
    SoundHeartbeat(key, uuid, Acks(version, 1), req) && req.stamp == FormatInt(time) && req.nonce == SECOND_NONCE
  }

  lemma OutsideCall(master: string, accepts: SettingsCheck, sys: System, op: Op)
    requires !FromAgent(op) || Resent(sys, op)
    ensures var sys' := Do(master, accepts, sys, Outside(op));
            sys'.server == Step(master, sys.server, op) && sys'.nodes == sys.nodes && sys'.sent == sys.sent
    ensures OpOf(sys, Outside(op)) == [op]
  {
  }

  lemma OwnCall(master: string, accepts: SettingsCheck, sys: System, key: string, verifyAt: int, commitAt: int)
    requires key in sys.nodes && (sys.nodes[key].wire.AskBootstrap? || sys.nodes[key].wire.AskSigned?)
    ensures var sys', op := Do(master, accepts, sys, Deliver(key, true, verifyAt, commitAt)),
                            Call(sys.nodes[key], true, verifyAt, commitAt);
            && sys'.server == Step(master, sys.server, op) && key in sys'.nodes && sys'.sent == sys.sent
            && sys'.nodes[key] == Answered(master, sys.server, sys.nodes[key], op)
            && OpOf(sys, Deliver(key, true, verifyAt, commitAt)) == [op]
  {
  }

  // ---------- Runs, with their clocks and delays ----------

  ghost predicate Latest(ops: seq<Op>, t: int) { forall i :: 0 <= i < |ops| ==> When(ops[i]) <= t }

  // A patient run whose calls are clocked and have committed by time t.
  ghost predicate Traced(master: string, accepts: SettingsCheck, first: System, events: seq<Event>, delays: Delays,
                         slack: nat, t: int)
  {
    && PatientRun(master, accepts, first, events, delays)
    && Clocked(OpsOf(master, accepts, first, events), slack) && Latest(OpsOf(master, accepts, first, events), t)
  }

  predicate Follows(op: Op, slack: nat, t: int, t': int) {
    t <= Checked(op) + slack && Checked(op) <= When(op) <= Checked(op) + slack && When(op) <= t'
  }

  lemma OneMore(master: string, accepts: SettingsCheck, first: System, events: seq<Event>, e: Event, delays: Delays,
                slack: nat, t: int, t': int)
    requires Traced(master, accepts, first, events, delays, slack, t) && t <= t'
    requires var sys := DoAll(master, accepts, first, events);
             Patient(sys, e, delays) && forall op :: op in OpOf(sys, e) ==> Follows(op, slack, t, t')
    ensures Traced(master, accepts, first, events + [e], delays, slack, t')
    ensures DoAll(master, accepts, first, events + [e]) == Do(master, accepts, DoAll(master, accepts, first, events), e)
  {
    var all := events + [e];
    assert all[..|all| - 1] == events;
    var ops, more := OpsOf(master, accepts, first, events), OpOf(DoAll(master, accepts, first, events), e);
    assert OpsOf(master, accepts, first, all) == ops + more;
    ClockedOn(ops, more, slack, t, t');
  }

  lemma ClockedOn(ops: seq<Op>, more: seq<Op>, slack: nat, t: int, t': int)
    requires Clocked(ops, slack) && Latest(ops, t) && t <= t' && |more| <= 1
    requires forall op :: op in more ==> Follows(op, slack, t, t')
    ensures Clocked(ops + more, slack) && Latest(ops + more, t')
  {
    var all := ops + more;
    assert more != [] ==> more[0] in more;
    assert forall i :: 0 <= i < |all| ==> all[i] == if i < |ops| then ops[i] else more[0];
  }

  // ---------- Coming to rest ----------

  lemma SentGrows(master: string, accepts: SettingsCheck, sys: System, e: Event)
    ensures sys.sent <= Do(master, accepts, sys, e).sent
  {
  }

  // Calls at time 0.
  lemma ZeroOps(sys: System, e: Event)
    requires AtZero(e)
    ensures forall op :: op in OpOf(sys, e) ==> When(op) == Checked(op) == 0
  {
  }

  // A run at time 0 in which nothing is claimed before the last approval.
  lemma {:induction false} ZeroTraced(master: string, accepts: SettingsCheck, first: System, events: seq<Event>,
                                      delays: Delays, slack: nat)
    requires forall i :: 0 <= i < |events| ==> AtZero(events[i])
    requires forall x :: x in DoAll(master, accepts, first, events).sent ==> !Claims(x)
    ensures Traced(master, accepts, first, events, delays, slack, 0)
    decreases |events|
  {
    if events == [] {
    } else {
      var before, e := events[..|events| - 1], events[|events| - 1];
      var sys := DoAll(master, accepts, first, before);
      SentGrows(master, accepts, sys, e);
      ZeroTraced(master, accepts, first, before, delays, slack);
      ZeroOps(sys, e);
      OneMore(master, accepts, first, before, e, delays, slack, 0, 0);
      assert events == before + [e];
    }
  }

  lemma {:induction false} MoreTraced(master: string, accepts: SettingsCheck, first: System, past: seq<Event>,
                                      events: seq<Event>, delays: Delays, slack: nat)
    requires Traced(master, accepts, first, past, delays, slack, 0) && NoneOutside(events)
    requires forall i :: 0 <= i < |events| ==> AtZero(events[i])
    ensures Traced(master, accepts, first, past + events, delays, slack, 0)
    decreases |events|
  {
    if events == [] {
      assert past + events == past;
    } else {
      var before, e := events[..|events| - 1], events[|events| - 1];
      MoreTraced(master, accepts, first, past, before, delays, slack);
      ZeroOps(DoAll(master, accepts, first, past + before), e);
      OneMore(master, accepts, first, past + before, e, delays, slack, 0, 0);
      assert past + events == (past + before) + [e];
    }
  }

  // After six steps of its own from its introduction, the node is between two
  // rounds with the first password.
  lemma RestingNode(master: string, accepts: SettingsCheck, last: System, key: string, g: Goal, start: Start,
                    beats: nat)
    requires CalmInv(master, accepts, last, key, 1, g, start, beats) && Rank(last.nodes[key]) + 6 == 3 + 3 * beats
    requires g.cred.version == 1 && start.acks.passwordVersion == 0
    ensures InStep(master, last, key, 1) && Registered(last.server, key, 1)
    ensures last.server.db.devices[1].uuid == g.uuid && last.server.db.settings == g.settings
    ensures Holding(last, key, g.uuid, last.server.db.settings.version, g.password)
  {
  }

  // Six steps of the introduced node, all of them at time 0.
  lemma SixSteps(master: string, accepts: SettingsCheck, sys: System, key: string, uuid: string, servers: Servers,
                 password: string) returns (more: seq<Event>)
    requires SystemInv(master, sys) && key in sys.nodes && Introduced(master, sys, key, uuid, servers, password)
    requires accepts(servers) && |key| == KEY_SIZE && ValidUuid(uuid)
    ensures NoneOutside(more) && forall i :: 0 <= i < |more| ==> AtZero(more[i])
    ensures var last := DoAll(master, accepts, sys, more);
            && InStep(master, last, key, 1) && Registered(last.server, key, 1)
            && last.server.db.devices[1].uuid == uuid && last.server.db.settings == sys.server.db.settings
            && Holding(last, key, uuid, last.server.db.settings.version, password)
            && forall x :: x in last.sent ==> x in sys.sent || Stamp(x.req) == 0
  {
    IntroducedIsCalm(master, accepts, sys, key, uuid, servers, password);
    var g := Goal(uuid, sys.server.db.settings, sys.server.db.creds[1], password);
    var nonces, times := FreshNonces(6);
    more := CalmRunFrom(master, accepts, sys, key, 1, g, StartOf(sys.nodes[key]), nonces, times, 0, 0);
    CalmRunKept(master, accepts, sys, more, key, 1, g, StartOf(sys.nodes[key]));
    RestingNode(master, accepts, DoAll(master, accepts, sys, more), key, g, StartOf(sys.nodes[key]),
                CountBeats(master, accepts, sys, more, key));
    hide FormatInt, ParseInt, Stamp, CalmInv;
    assert forall i :: 0 <= i < |more| ==> DeliveredBetween(more[i], 0, 0);
  }

  lemma ComingToRest(master: string, accepts: SettingsCheck, first: System, key: string, servers: Servers, seed: Seed,
                     delays: Delays, slack: nat) returns (events: seq<Event>, req: Request)
    requires Initial(first) && key in first.nodes && accepts(servers)
    requires |key| == KEY_SIZE && ValidUuid(first.nodes[key].uuid)
    ensures Traced(master, accepts, first, events, delays, slack, 0)
    ensures AtRest(master, DoAll(master, accepts, first, events), key, first.nodes[key].uuid, Encode(seed), req)
    ensures DoAll(master, accepts, first, events).server.db.settings.servers == servers
  {
    hide *;
    var uuid := first.nodes[key].uuid;
    var past := GettingKnown(master, accepts, first, key, servers, seed, SEAL);
    var sys := DoAll(master, accepts, first, past);
    ReachableSystem(master, accepts, first, past);
    var x :| sys.sent == {x} && Opening(x.req, key, uuid, 0, FIRST_NONCE);
    OpeningClaimsNothing(x, key, uuid);
    ZeroTraced(master, accepts, first, past, delays, slack);
    var more := SixSteps(master, accepts, sys, key, uuid, servers, Encode(seed));
    MoreEvents(master, accepts, first, past, more);
    MoreTraced(master, accepts, first, past, more, delays, slack);
    ReachableSystem(master, accepts, first, past + more);
    events, req := past + more, x.req;
    RestingSent(master, accepts, sys, more, x);
    IntroducedSettings(master, sys, key, uuid, servers, Encode(seed));
    AllAtRest(master, DoAll(master, accepts, first, events), key, uuid, Encode(seed), x);
  }

  lemma AllAtRest(master: string, sys: System, key: string, uuid: string, password: string, x: Sent)
    requires SystemInv(master, sys) && InStep(master, sys, key, 1) && Registered(sys.server, key, 1)
    requires |key| == KEY_SIZE && ValidUuid(uuid) && sys.server.db.devices[1].uuid == uuid
    requires Holding(sys, key, uuid, sys.server.db.settings.version, password)
    requires Opening(x.req, key, uuid, 0, FIRST_NONCE) && x in sys.sent
    requires forall y :: y in sys.sent ==> Stamp(y.req) == 0
    ensures AtRest(master, sys, key, uuid, password, x.req)
  {
    hide FormatInt, ParseInt, SoundEnrollment;
  }

  lemma OpeningClaimsNothing(x: Sent, key: string, uuid: string)
    requires Opening(x.req, key, uuid, 0, FIRST_NONCE)
    ensures !Claims(x) && Stamp(x.req) == 0
  {
    ParseFormat(0);
  }

  lemma IntroducedSettings(master: string, sys: System, key: string, uuid: string, servers: Servers, password: string)
    requires key in sys.nodes && Introduced(master, sys, key, uuid, servers, password)
    ensures sys.server.db.settings.servers == servers
  {
  }

  lemma {:induction false} RestingSent(master: string, accepts: SettingsCheck, sys: System, events: seq<Event>, x: Sent)
    requires x in sys.sent
    ensures x in DoAll(master, accepts, sys, events).sent
    decreases |events|
  {
    if events == [] {
    } else {
      RestingSent(master, accepts, sys, events[..|events| - 1], x);
      SentGrows(master, accepts, DoAll(master, accepts, sys, events[..|events| - 1]), events[|events| - 1]);
    }
  }

  // ---------- A reset that comes early ----------

  // Device 1 is shown as synchronized, but the host has another password.
  ghost predicate Wrong(master: string, sys: System, key: string, password: string, other: string) {
    && key in sys.nodes && sys.nodes[key].loop.host.password == password
    && 1 in sys.server.db.devices && Registered(sys.server, key, 1) && PasswordSynced(sys.server.db, 1)
    && 1 in sys.server.db.creds && Opened(master, sys.server.db, 1) == Some(other)
  }

  // The reset, when no enrollment is younger than the delay asks.
  lemma ResetStep(master: string, accepts: SettingsCheck, sys: System, key: string, uuid: string, password: string,
                  req: Request, delays: Delays)
    requires AtRest(master, sys, key, uuid, password, req)
    ensures var e := Outside(Reset(1, delays.reset));
            && Patient(sys, e, delays) && OpOf(sys, e) == [e.op]
            && var sys' := Do(master, accepts, sys, e);
               && sys'.nodes == sys.nodes && sys'.sent == sys.sent && sys'.server.db.settings == sys.server.db.settings
               && Forgotten(master, sys'.server, uuid, sys.server.db.settings.version)
  {
    hide FormatInt, ParseInt, Inv, SoundEnrollment;
    OutsideCall(master, accepts, sys, Reset(1, delays.reset));
    ResetForgets(master, sys.server, key, uuid, delays.reset);
  }

  lemma AgainStep(master: string, accepts: SettingsCheck, sys: System, key: string, uuid: string, version: nat,
                  req: Request, verifyAt: int, commitAt: int)
    requires Forgotten(master, sys.server, uuid, version) && Opening(req, key, uuid, 0, FIRST_NONCE)
    requires 0 <= verifyAt <= 300 && exists x :: x in sys.sent && x.req == req
    ensures var e := Outside(Enroll(true, req, verifyAt, commitAt));
            && (forall delays :: Patient(sys, e, delays)) && OpOf(sys, e) == [e.op]
            && var sys' := Do(master, accepts, sys, e);
               && sys'.nodes == sys.nodes && sys'.sent == sys.sent
               && KnownAgain(master, sys'.server, key, uuid, version, FIRST_NONCE)
  {
    hide FormatInt, ParseInt, Inv, Opening;
    OutsideCall(master, accepts, sys, Enroll(true, req, verifyAt, commitAt));
    EnrolledAgain(master, sys.server, key, uuid, version, req, 0, FIRST_NONCE, verifyAt, commitAt);
  }

  // The approval, when no claim from before is younger than the delay asks.
  lemma ApprovalStep(master: string, accepts: SettingsCheck, sys: System, key: string, uuid: string, version: nat,
                     nonce: string, seed: Seed, now: int, delays: Delays)
    requires KnownAgain(master, sys.server, key, uuid, version, nonce)
    requires forall x :: x in sys.sent && Claims(x) ==> Stamp(x.req) + delays.approval <= now
    ensures var e := Outside(Approve(1, seed, SEAL, now));
            && Patient(sys, e, delays) && OpOf(sys, e) == [e.op]
            && var sys' := Do(master, accepts, sys, e);
               && sys'.nodes == sys.nodes && sys'.sent == sys.sent
               && ApprovedAnew(master, sys'.server, key, uuid, version, Encode(seed), nonce)
  {
    hide FormatInt, ParseInt, Inv;
    OutsideCall(master, accepts, sys, Approve(1, seed, SEAL, now));
    ApprovedAgain(master, sys.server, key, uuid, version, nonce, seed, now);
  }

  // The node's report reaches a device approved anew.
  lemma ReportStep(master: string, accepts: SettingsCheck, sys: System, key: string, uuid: string, version: nat,
                   password: string, time: int)
    requires ApprovedAnew(master, sys.server, key, uuid, version, password, FIRST_NONCE) && key in sys.nodes
    requires sys.nodes[key].wire.AskSigned? && Report(sys.nodes[key].wire.req, key, uuid, version, time)
    requires MIN_INT64 <= time <= MAX_INT64
    ensures var e := Deliver(key, true, time, time);
            && (forall delays :: Patient(sys, e, delays))
            && OpOf(sys, e) == [Heartbeat(sys.nodes[key].wire.req, time, time)]
            && Wrong(master, Do(master, accepts, sys, e), key, sys.nodes[key].loop.host.password, password)
  {
    hide FormatInt, ParseInt, Inv;
    OwnCall(master, accepts, sys, key, time, time);
    BeatMisleads(master, sys.server, key, uuid, version, password, FIRST_NONCE, sys.nodes[key].wire.req, time, time,
                 time);
  }

  // Five events: the enrollment sent again registers a node that still holds
  // the old password's version, which is taken for the new one's.
  lemma EarlyReset(master: string, accepts: SettingsCheck, first: System, past: seq<Event>, key: string, uuid: string,
                   password: string, req: Request, seed: Seed, delays: Delays, slack: nat) returns (events: seq<Event>)
    requires Traced(master, accepts, first, past, delays, slack, 0)
    requires AtRest(master, DoAll(master, accepts, first, past), key, uuid, password, req)
    requires delays.reset <= 300 + slack && delays.reset <= MAX_INT64 && delays.approval <= MAX_INT64
    ensures PatientRun(master, accepts, first, events, delays) && Clocked(OpsOf(master, accepts, first, events), slack)
    ensures Wrong(master, DoAll(master, accepts, first, events), key, password, Encode(seed))
  {
    hide FormatInt, ParseInt, Inv, InStep, SoundEnrollment, SoundHeartbeat, Forgotten, KnownAgain, ApprovedAnew, Wrong,
         Do, DoAll, Patient, OpOf, PatientRun, Clocked, Latest, OpsOf, Registered, Stamp;
    var s0 := DoAll(master, accepts, first, past);
    var version, late := s0.server.db.settings.version, delays.reset;
    var early := if late <= slack then 0 else late - slack;
    var last := if late < delays.approval then delays.approval else late;
    var e1, e2 := Outside(Reset(1, late)), Outside(Enroll(true, req, early, late));
    var e3, e4 := Outside(Approve(1, seed, SEAL, last)), Send(key, last, SECOND_NONCE, INFO);
    var e5 := Deliver(key, true, last, last);
    var s1 := Do(master, accepts, s0, e1);
    ResetStep(master, accepts, s0, key, uuid, password, req, delays);
    OneMore(master, accepts, first, past, e1, delays, slack, 0, late);
    var s2 := Do(master, accepts, s1, e2);
    AgainStep(master, accepts, s1, key, uuid, version, req, early, late);
    OneMore(master, accepts, first, past + [e1], e2, delays, slack, late, late);
    var s3 := Do(master, accepts, s2, e3);
    ApprovalStep(master, accepts, s2, key, uuid, version, FIRST_NONCE, seed, last, delays);
    OneMore(master, accepts, first, past + [e1] + [e2], e3, delays, slack, late, last);
    var s4 := Do(master, accepts, s3, e4);
    StillReports(master, accepts, s3, key, uuid, version, password, last);
    SendIsPatient(s3, e4, delays);
    OneMore(master, accepts, first, past + [e1] + [e2] + [e3], e4, delays, slack, last, last);
    ReportStep(master, accepts, s4, key, uuid, version, Encode(seed), last);
    OneMore(master, accepts, first, past + [e1] + [e2] + [e3] + [e4], e5, delays, slack, last, last);
    events := past + [e1] + [e2] + [e3] + [e4] + [e5];
  }

  lemma SendIsPatient(sys: System, e: Event, delays: Delays)
    requires !e.Outside? && !e.Deliver?
    ensures Patient(sys, e, delays) && OpOf(sys, e) == []
  {
  }

  // ---------- An approval that comes early ----------

  // The report of a node whose device was reset is refused, and the node starts
  // over with nothing acknowledged.
  lemma ReportRefused(master: string, s: Server, key: string, uuid: string, version: nat, req: Request, now: int)
    requires Forgotten(master, s, uuid, version) && req.deviceId == uuid && WellFormedHeartbeat(req.body)
    ensures ReplyTo(master, s, Heartbeat(req, now, now)) == Refused(BadSignature)
    ensures Step(master, s, Heartbeat(req, now, now)) == s
  {
    hide Inv;
    FrameOf(master, s);
    FindDeviceUnique(s.db, uuid, 1);
  }

  lemma RefusedStep(master: string, accepts: SettingsCheck, sys: System, key: string, uuid: string, version: nat,
                    time: int)
    requires Forgotten(master, sys.server, uuid, version) && key in sys.nodes
    requires var a := sys.nodes[key];
             a.phase == AwaitHeartbeat && a.wire.AskSigned? && Report(a.wire.req, key, uuid, version, time)
    ensures var e := Deliver(key, true, time, time);
            && (forall delays :: Patient(sys, e, delays))
            && OpOf(sys, e) == [Heartbeat(sys.nodes[key].wire.req, time, time)]
            && var sys', a := Do(master, accepts, sys, e), sys.nodes[key];
               && sys'.server == sys.server && sys'.sent == sys.sent && key in sys'.nodes
               && sys'.nodes[key] == a.(wire := sys'.nodes[key].wire)
               && sys'.nodes[key].wire.Answer? && sys'.nodes[key].wire.reply == Refused(BadSignature)
  {
    hide FormatInt, ParseInt, Inv;
    OwnCall(master, accepts, sys, key, time, time);
    ReportRefused(master, sys.server, key, uuid, version, sys.nodes[key].wire.req, time);
  }

  // A node that has just failed is as good as new.
  lemma StartsOver(master: string, accepts: SettingsCheck, sys: System, key: string, time: int, nonce: string)
    requires key in sys.nodes && sys.nodes[key].phase == AwaitHeartbeat
    requires sys.nodes[key].wire.Answer? && sys.nodes[key].wire.reply.Refused?
    ensures var sys', a := Do(master, accepts, sys, Receive(key, SMOOTH, time, nonce, INFO)), sys.nodes[key];
            && sys'.server == sys.server && sys'.sent == sys.sent && key in sys'.nodes && FreshNode(sys'.nodes[key])
            && sys'.nodes[key].uuid == a.uuid && sys'.nodes[key].loop.host == a.loop.host
  {
  }

  lemma EnrollStepAgain(master: string, accepts: SettingsCheck, sys: System, key: string, uuid: string, version: nat,
                        time: int)
    requires Forgotten(master, sys.server, uuid, version) && key in sys.nodes && MIN_INT64 <= time <= MAX_INT64
    requires var a := sys.nodes[key]; a.wire.AskSigned? && Opening(a.wire.req, key, uuid, time, THIRD_NONCE)
    ensures var e := Deliver(key, true, time, time);
            && (forall delays :: Patient(sys, e, delays))
            && OpOf(sys, e) == [Enroll(true, sys.nodes[key].wire.req, time, time)]
            && var sys', a := Do(master, accepts, sys, e), sys.nodes[key];
               && KnownAgain(master, sys'.server, key, uuid, version, THIRD_NONCE) && sys'.sent == sys.sent
               && key in sys'.nodes && sys'.nodes[key].loop.host.password == a.loop.host.password
  {
    hide FormatInt, ParseInt, Inv;
    OwnCall(master, accepts, sys, key, time, time);
    EnrolledAgain(master, sys.server, key, uuid, version, sys.nodes[key].wire.req, time, THIRD_NONCE, time, time);
  }

  // The refused report sent again reaches the device approved anew.
  lemma ClaimStep(master: string, accepts: SettingsCheck, sys: System, key: string, uuid: string, version: nat,
                  password: string, req: Request, time: int, verifyAt: int, commitAt: int)
    requires ApprovedAnew(master, sys.server, key, uuid, version, password, THIRD_NONCE) && key in sys.nodes
    requires Report(req, key, uuid, version, time) && (exists x :: x in sys.sent && x.req == req)
    requires MIN_INT64 <= time <= MAX_INT64 && time <= verifyAt <= time + 300
    ensures var e := Outside(Heartbeat(req, verifyAt, commitAt));
            && (forall delays :: Patient(sys, e, delays)) && OpOf(sys, e) == [e.op]
            && Wrong(master, Do(master, accepts, sys, e), key, sys.nodes[key].loop.host.password, password)
  {
    hide FormatInt, ParseInt, Inv;
    OutsideCall(master, accepts, sys, Heartbeat(req, verifyAt, commitAt));
    BeatMisleads(master, sys.server, key, uuid, version, password, THIRD_NONCE, req, time, verifyAt, commitAt);
  }

  // The node finds its device reset, and enrolls again, all at one time.
  lemma EnrollsAnew(master: string, accepts: SettingsCheck, first: System, past: seq<Event>, key: string, uuid: string,
                    version: nat, password: string, time: int, delays: Delays, slack: nat)
    returns (events: seq<Event>, req: Request)
    requires Traced(master, accepts, first, past, delays, slack, time) && 0 <= time <= MAX_INT64 && |key| == KEY_SIZE
    requires ValidUuid(uuid)
    requires var sys := DoAll(master, accepts, first, past);
             && Holding(sys, key, uuid, version, password) && Forgotten(master, sys.server, uuid, version)
             && accepts(sys.server.db.settings.servers) && forall x :: x in sys.sent ==> Stamp(x.req) <= time
    ensures Traced(master, accepts, first, events, delays, slack, time) && Report(req, key, uuid, version, time)
    ensures var sys := DoAll(master, accepts, first, events);
            && KnownAgain(master, sys.server, key, uuid, version, THIRD_NONCE)
            && key in sys.nodes && sys.nodes[key].loop.host.password == password
            && (exists x :: x in sys.sent && x.req == req)
            && forall x :: x in sys.sent && Claims(x) ==> Stamp(x.req) <= time
  {
    hide FormatInt, ParseInt, Inv, InStep, SoundEnrollment, SoundHeartbeat, KnownAgain, Do, DoAll, Patient, OpOf,
         PatientRun, Clocked, Latest, OpsOf, Registered, Stamp, Report, Opening, Valid;
    var s0 := DoAll(master, accepts, first, past);
    var e1, e2 := Send(key, time, SECOND_NONCE, INFO), Deliver(key, true, time, time);
    var e3 := Receive(key, SMOOTH, time, THIRD_NONCE, INFO);
    var s1 := Do(master, accepts, s0, e1);
    StillReports(master, accepts, s0, key, uuid, version, password, time);
    SendIsPatient(s0, e1, delays);
    OneMore(master, accepts, first, past, e1, delays, slack, time, time);
    req := s1.nodes[key].wire.req;
    ReportStamped(req, key, uuid, version, time);
    var s2 := Do(master, accepts, s1, e2);
    RefusedStep(master, accepts, s1, key, uuid, version, time);
    OneMore(master, accepts, first, past + [e1], e2, delays, slack, time, time);
    var s3 := Do(master, accepts, s2, e3);
    StartsOver(master, accepts, s2, key, time, THIRD_NONCE);
    SendIsPatient(s2, e3, delays);
    OneMore(master, accepts, first, past + [e1] + [e2], e3, delays, slack, time, time);
    events := EnrollsAfresh(master, accepts, first, past + [e1] + [e2] + [e3], key, uuid, version, time, delays, slack);
  }

  lemma ReportStamped(req: Request, key: string, uuid: string, version: nat, time: int)
    requires Report(req, key, uuid, version, time) && MIN_INT64 <= time <= MAX_INT64
    ensures Stamp(req) == time
  {
    ParseFormat(time);
  }

  lemma OpeningStamped(x: Sent, key: string, uuid: string, time: int, nonce: string)
    requires Opening(x.req, key, uuid, time, nonce)
    ensures !Claims(x)
  {
  }

  // A new node asks for settings and enrolls.
  lemma EnrollsAfresh(master: string, accepts: SettingsCheck, first: System, past: seq<Event>, key: string,
                      uuid: string, version: nat, time: int, delays: Delays, slack: nat) returns (events: seq<Event>)
    requires Traced(master, accepts, first, past, delays, slack, time) && 0 <= time <= MAX_INT64 && |key| == KEY_SIZE
    requires ValidUuid(uuid)
    requires var sys := DoAll(master, accepts, first, past);
             && key in sys.nodes && FreshNode(sys.nodes[key]) && sys.nodes[key].uuid == uuid
             && Forgotten(master, sys.server, uuid, version) && accepts(sys.server.db.settings.servers)
    ensures Traced(master, accepts, first, events, delays, slack, time)
    ensures var sys, sys' := DoAll(master, accepts, first, past), DoAll(master, accepts, first, events);
            && KnownAgain(master, sys'.server, key, uuid, version, THIRD_NONCE)
            && key in sys'.nodes && sys'.nodes[key].loop.host.password == sys.nodes[key].loop.host.password
            && (forall x :: x in sys.sent ==> x in sys'.sent)
            && forall x :: x in sys'.sent && Claims(x) ==> x in sys.sent
  {
    hide FormatInt, ParseInt, InStep, SoundEnrollment, SoundHeartbeat, KnownAgain, Do, DoAll, Patient,
         PatientRun, Clocked, Latest, OpsOf, Registered, Stamp, Opening, Valid, TableInv, HistoryInv;
    var s0 := DoAll(master, accepts, first, past);
    var e1, e2 := Send(key, time, THIRD_NONCE, INFO), Deliver(key, true, time, time);
    var e3 := Receive(key, SMOOTH, time, THIRD_NONCE, INFO);
    var s1 := Do(master, accepts, s0, e1);
    SettingsAsked(master, accepts, s0, key, time, THIRD_NONCE);
    SendIsPatient(s0, e1, delays);
    OneMore(master, accepts, first, past, e1, delays, slack, time, time);
    var s2 := Do(master, accepts, s1, e2);
    SettingsTold(master, accepts, s1, key, time);
    BootstrapStep(s1, key, time);
    OneMore(master, accepts, first, past + [e1], e2, delays, slack, time, time);
    BootstrapKeeps(master, accepts, s1, key, uuid, version, time);
    var s3 := Do(master, accepts, s2, e3);
    SettingsReceived(master, accepts, s2, key, time, THIRD_NONCE);
    SendIsPatient(s2, e3, delays);
    OneMore(master, accepts, first, past + [e1] + [e2], e3, delays, slack, time, time);
    OpeningStamped(Sent(s3.nodes[key].wire.req, s3.nodes[key].epoch), key, uuid, time, THIRD_NONCE);
    EnrollStepAgain(master, accepts, s3, key, uuid, version, time);
    OneMore(master, accepts, first, past + [e1] + [e2] + [e3], e2, delays, slack, time, time);
    events := past + [e1] + [e2] + [e3] + [e2];
  }

  lemma BootstrapStep(sys: System, key: string, time: int)
    requires key in sys.nodes && sys.nodes[key].wire.AskBootstrap?
    ensures var e := Deliver(key, true, time, time);
            (forall delays :: Patient(sys, e, delays)) && OpOf(sys, e) == [Bootstrap(true, time)]
  {
  }

  lemma BootstrapKeeps(master: string, accepts: SettingsCheck, sys: System, key: string, uuid: string, version: nat,
                       time: int)
    requires Forgotten(master, sys.server, uuid, version) && key in sys.nodes && sys.nodes[key].wire.AskBootstrap?
    ensures Forgotten(master, Do(master, accepts, sys, Deliver(key, true, time, time)).server, uuid, version)
  {
    hide Inv;
    OwnCall(master, accepts, sys, key, time, time);
    KeptByStep(master, sys.server, Bootstrap(true, time));
  }

  // Ten events: a report from before the reset, sent again after the approval.
  lemma EarlyApproval(master: string, accepts: SettingsCheck, first: System, past: seq<Event>, key: string,
                      uuid: string, password: string, req: Request, seed: Seed, delays: Delays, slack: nat)
    returns (events: seq<Event>)
    requires Traced(master, accepts, first, past, delays, slack, 0)
    requires var sys := DoAll(master, accepts, first, past);
             AtRest(master, sys, key, uuid, password, req) && accepts(sys.server.db.settings.servers)
    requires delays.approval <= 300 + slack && delays.reset <= MAX_INT64
    ensures PatientRun(master, accepts, first, events, delays) && Clocked(OpsOf(master, accepts, first, events), slack)
    ensures Wrong(master, DoAll(master, accepts, first, events), key, password, Encode(seed))
  {
    hide FormatInt, ParseInt, Inv, InStep, SoundEnrollment, SoundHeartbeat, Forgotten, KnownAgain, ApprovedAnew, Wrong,
         Do, DoAll, Patient, OpOf, PatientRun, Clocked, Latest, OpsOf, Registered, Stamp, Report;
    var s0 := DoAll(master, accepts, first, past);
    var version, time := s0.server.db.settings.version, delays.reset;
    var commit := time + delays.approval;
    var check := if delays.approval <= slack then time else commit - slack;
    var e1, e9 := Outside(Reset(1, time)), Outside(Approve(1, seed, SEAL, commit));
    ResetStep(master, accepts, s0, key, uuid, password, req, delays);
    OneMore(master, accepts, first, past, e1, delays, slack, 0, time);
    var enrolled, report := EnrollsAnew(master, accepts, first, past + [e1], key, uuid, version, password, time, delays,
                                        slack);
    var s8 := DoAll(master, accepts, first, enrolled);
    ApprovalStep(master, accepts, s8, key, uuid, version, THIRD_NONCE, seed, commit, delays);
    OneMore(master, accepts, first, enrolled, e9, delays, slack, time, commit);
    var s9, e10 := Do(master, accepts, s8, e9), Outside(Heartbeat(report, check, commit));
    ClaimStep(master, accepts, s9, key, uuid, version, Encode(seed), report, time, check, commit);
    OneMore(master, accepts, first, enrolled + [e9], e10, delays, slack, commit, commit);
    events := enrolled + [e9] + [e10];
  }

  // ---------- Main result ----------

  // Every device shown as synchronized has the current password installed.
  ghost predicate Truthful(master: string, sys: System) {
    forall key, id ::
      key in sys.nodes && Registered(sys.server, key, id)
      && id in sys.server.db.devices && PasswordSynced(sys.server.db, id) ==>
        id in sys.server.db.creds && Opened(master, sys.server.db, id) == Some(sys.nodes[key].loop.host.password)
  }

  // Whatever was ever sent may be sent again by anyone, at any time.
  ghost predicate SurvivesResets(delays: Delays, slack: nat) {
    forall master, accepts, first, events ::
      Initial(first) && PatientRun(master, accepts, first, events, delays)
      && Clocked(OpsOf(master, accepts, first, events), slack) ==>
        Truthful(master, DoAll(master, accepts, first, events))
  }

  lemma PatientIsTruthful(master: string, accepts: SettingsCheck, first: System, events: seq<Event>, delays: Delays,
                          slack: nat)
    requires Initial(first) && PatientRun(master, accepts, first, events, delays) && LongEnough(delays, slack)
    requires Clocked(OpsOf(master, accepts, first, events), slack)
    ensures Truthful(master, DoAll(master, accepts, first, events))
  {
    PatientIsWithin(master, accepts, first, events, slack, delays);
    var sys := DoAll(master, accepts, first, events);
    forall key, id | key in sys.nodes && Registered(sys.server, key, id) && id in sys.server.db.devices
                     && PasswordSynced(sys.server.db, id)
      ensures id in sys.server.db.creds && Opened(master, sys.server.db, id) == Some(sys.nodes[key].loop.host.password)
    {
      TruthfulSync(master, accepts, first, events, sys, key, id);
    }
  }

  function ExampleSystem(): System {
    var host := Host(Servers("", "", ""), "", false, false);
    System(FIRST, map[EXAMPLE_KEY := Node(EXAMPLE_UUID, Idle, Silent, Loop(NO_ACKS, false, 0, host), 0)], {})
  }

  lemma WrongIsUntruthful(master: string, sys: System, key: string, first: Seed, second: Seed)
    requires Wrong(master, sys, key, Encode(first), Encode(second)) && first != second
    ensures !Truthful(master, sys)
  {
    if Encode(first) == Encode(second) {
      EncodeInjective(first, second);
    }
  }

  lemma ExampleStarts()
    ensures var sys := ExampleSystem();
            && Initial(sys) && EXAMPLE_KEY in sys.nodes && |EXAMPLE_KEY| == KEY_SIZE
            && sys.nodes[EXAMPLE_KEY].uuid == EXAMPLE_UUID && ValidUuid(EXAMPLE_UUID)
  {
    ExampleWellFormed();
  }

  lemma TooEarly(delays: Delays, slack: nat) returns (accepts: SettingsCheck, first: System, events: seq<Event>)
    requires delays.reset <= MAX_INT64 && delays.approval <= MAX_INT64
    requires delays.reset <= 300 + slack || delays.approval <= 300 + slack
    ensures Initial(first) && PatientRun("", accepts, first, events, delays)
    ensures Clocked(OpsOf("", accepts, first, events), slack)
    ensures !Truthful("", DoAll("", accepts, first, events))
  {
    hide *;
    var servers := Servers("", "", "");
    accepts, first := Anything(), ExampleSystem();
    AnythingAccepts(servers);
    var seed: Seed, other: Seed := seq(24, i => 0), seq(24, i => 1);
    assert seed[0] != other[0];
    ExampleStarts();
    var past, req := ComingToRest("", accepts, first, EXAMPLE_KEY, servers, seed, delays, slack);
    if delays.reset <= 300 + slack {
      events := EarlyReset("", accepts, first, past, EXAMPLE_KEY, EXAMPLE_UUID, Encode(seed), req, other, delays,
                           slack);
    } else {
      events := EarlyApproval("", accepts, first, past, EXAMPLE_KEY, EXAMPLE_UUID, Encode(seed), req, other, delays,
                              slack);
    }
    WrongIsUntruthful("", DoAll("", accepts, first, events), EXAMPLE_KEY, seed, other);
  }

  function Anything(): SettingsCheck { s => true }

  lemma AnythingAccepts(servers: Servers)
    ensures Anything()(servers)
  {
  }

  // Truthful synchronization survives resets, under any resending and for any
  // delays that a clock can count, exactly when both delays are longer than the
  // time for which a signature is believed and a call may lag its check.
  lemma TruthfulIffLongEnough(delays: Delays, slack: nat)
    requires delays.reset <= MAX_INT64 && delays.approval <= MAX_INT64
    ensures SurvivesResets(delays, slack) <==> delays.reset > 300 + slack && delays.approval > 300 + slack
  {
    if LongEnough(delays, slack) {
      forall master, accepts, first, events |
        Initial(first) && PatientRun(master, accepts, first, events, delays)
        && Clocked(OpsOf(master, accepts, first, events), slack)
        ensures Truthful(master, DoAll(master, accepts, first, events))
      {
        PatientIsTruthful(master, accepts, first, events, delays, slack);
      }
    } else {
      var accepts, first, events := TooEarly(delays, slack);
    }
  }
}
