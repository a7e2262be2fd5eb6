// Left alone, an approved device and the control plane come to agree: while
// everyone else goes on as they please, the agent's second heartbeat settles it.
module Convergence {
  import opened Text
  import opened Schema
  import opened Messages
  import opened Handlers
  import opened Runs
  import opened Versions
  import opened AgentLoop
  import opened Management
  import opened Truth

  // ---------- What both sides should come to ----------

  datatype Goal = Goal(uuid: string, settings: Settings, cred: Credential, password: string)

  // The terms of an approved device under a key, as the tables have them.
  ghost predicate Holds(master: string, db: Db, key: string, id: int, g: Goal) {
    && TableInv(master, db)
    && id in db.devices && db.devices[id].uuid == g.uuid && db.devices[id].status == Approved
    && id in db.auth && db.auth[id] == key
    && db.settings == g.settings
    && id in db.creds && db.creds[id] == g.cred && Opened(master, db, id) == Some(g.password)
  }

  predicate GoodPolicy(p: Policy, accepts: SettingsCheck, g: Goal) {
    p.policyVersion == g.settings.version && ServersOf(p.rustdesk) == g.settings.servers && Valid(p, accepts)
  }

  function CurrentAccess(g: Goal): Option<Access> { Some(Access(true, g.password, g.cred.version, true)) }

  // ---------- Requests that lack nothing but a fitting clock ----------

  predicate Genuine(key: string, path: string, req: Request) {
    && req.query == "" && GoodNonce(req.nonce) && |key| == KEY_SIZE
    && req.signature == Some(Signature(key, Message(VERB, path, req.stamp, req.nonce, req.body)))
  }

  predicate SoundEnrollment(key: string, uuid: string, req: Request) {
    && WellFormedEnrollment(req.body) && Genuine(key, ENROLL_PATH, req)
    && req.body.publicKey == Some(key) && req.body.uuid == uuid == req.deviceId
    && req.stamp == FormatInt(req.body.timestamp)
  }

  predicate SoundHeartbeat(key: string, uuid: string, acks: Acks, req: Request) {
    && WellFormedHeartbeat(req.body) && Genuine(key, HEARTBEAT_PATH, req) && req.deviceId == uuid
    && req.body.policyVersion == acks.policyVersion && req.body.passwordVersion == acks.passwordVersion
  }

  function Texts(info: Info): seq<string> {
    [info.rustdeskId, info.hostname, info.os, info.osVersion, info.arch, info.rustdeskVersion, info.managedVersion]
  }

  predicate GoodMetadata(nonce: string, info: Info) {
    && GoodNonce(nonce) && info.hostname != ""
    && Bounded(Texts(info))
  }

  // ---------- A node in the middle of its loop ----------

  // Where the node is, it can go on, and what it was told is current.
  predicate OnCourse(key: string, a: Node, accepts: SettingsCheck, g: Goal) {
    && |key| == KEY_SIZE && ValidUuid(g.uuid) && a.uuid == g.uuid
    && a.loop.acks.policyVersion <= g.settings.version && a.loop.acks.passwordVersion <= g.cred.version
    && match a.phase
       case Idle => !a.wire.Answer?
       case AwaitBootstrap =>
         && !a.loop.enrolled
         && (a.wire.AskBootstrap?
             || (a.wire.Answer? && a.wire.reply.Published? && GoodPolicy(a.wire.reply.policy, accepts, g)))
       case AwaitEnroll =>
         && !a.loop.enrolled
         && ((a.wire.AskSigned? && SoundEnrollment(key, g.uuid, a.wire.req))
             || (a.wire.Answer? && a.wire.reply.Enrolled?))
       case AwaitHeartbeat =>
         && a.loop.enrolled
         && ((a.wire.AskSigned? && SoundHeartbeat(key, g.uuid, a.loop.acks, a.wire.req))
             || (a.wire.Answer? && a.wire.reply.Beat? && GoodPolicy(a.wire.reply.policy, accepts, g)
                 && a.wire.reply.policy.access == CurrentAccess(g)))
  }

  // The steps of its own that the node has before it until it receives the
  // answer to a heartbeat.
  function Rank(a: Node): nat {
    match a.phase
    case Idle => if a.loop.enrolled then 3 else 7
    case AwaitBootstrap => if a.wire.Answer? then 5 else 6
    case AwaitEnroll => if a.wire.Answer? then 3 else 4
    case AwaitHeartbeat => if a.wire.Answer? then 1 else 2
  }

  // ---------- Events that let the agent be ----------

  // Calls by others that leave the settings and this device to themselves, and
  // calls that change nothing at all.
  ghost predicate Quiet(master: string, s: Server, op: Op, key: string, id: int) {
    || Step(master, s, op).db == s.db
    || (&& NotSignedBy(op, key)
        && (op.PutSettings? ==> op.servers == s.db.settings.servers)
        && (op.Approve? || op.Reject? || op.Rotate? || op.Reset? || op.Delete? ==> op.id != id))
  }

  // Everything may happen elsewhere; the agent's own calls and requests succeed
  // as far as that depends on clocks, nonces, limits and hosts.
  ghost predicate Calm(master: string, sys: System, e: Event, key: string, id: int) {
    match e
    case Outside(op) => Quiet(master, sys.server, op, key, id)
    case Send(k, _, nonce, info) => k == key ==> GoodMetadata(nonce, info)
    case Receive(k, calls, _, nonce, info) => k == key ==> calls == SMOOTH && GoodMetadata(nonce, info)
    case Deliver(k, admitted, verifyAt, _) =>
      k == key && key in sys.nodes ==>
        && sys.nodes[key].phase != Idle && admitted
        && (sys.nodes[key].wire.AskSigned? ==>
              && InWindow(sys.nodes[key].wire.req.stamp, verifyAt)
              && (id, sys.nodes[key].wire.req.nonce) !in sys.server.db.nonces)
    case Local(_, _) => true
    case _ => e.key != key
  }

  ghost predicate CalmRun(master: string, accepts: SettingsCheck, sys: System, events: seq<Event>, key: string, id: int)
    decreases |events|
  {
    events == [] ||
    (&& CalmRun(master, accepts, sys, events[..|events| - 1], key, id)
     && Calm(master, DoAll(master, accepts, sys, events[..|events| - 1]), events[|events| - 1], key, id))
  }

  // Steps that the node takes itself, and the answers to heartbeats among them.
  ghost predicate Moves(sys: System, e: Event, key: string) {
    && key in sys.nodes && (e.Send? || e.Deliver? || e.Receive?) && e.key == key
    && (e.Send? ==> sys.nodes[key].phase == Idle)
    && (e.Deliver? ==> sys.nodes[key].wire.AskBootstrap? || sys.nodes[key].wire.AskSigned?)
    && (e.Receive? ==> sys.nodes[key].wire.Answer?)
  }

  ghost predicate Beats(sys: System, e: Event, key: string) {
    Moves(sys, e, key) && e.Receive? && sys.nodes[key].phase == AwaitHeartbeat
  }

  ghost function CountMoves(master: string, accepts: SettingsCheck, sys: System, events: seq<Event>, key: string): nat
    decreases |events|
  {
    if events == [] then 0
    else
      var before := events[..|events| - 1];
      CountMoves(master, accepts, sys, before, key)
      + if Moves(DoAll(master, accepts, sys, before), events[|events| - 1], key) then 1 else 0
  }

  ghost function CountBeats(master: string, accepts: SettingsCheck, sys: System, events: seq<Event>, key: string): nat
    decreases |events|
  {
    if events == [] then 0
    else
      var before := events[..|events| - 1];
      CountBeats(master, accepts, sys, before, key)
      + if Beats(DoAll(master, accepts, sys, before), events[|events| - 1], key) then 1 else 0
  }

  // ---------- What a calm run keeps ----------

  // What the node held at the start.
  datatype Start = Start(acks: Acks, enrolled: bool, host: Host)

  // What its first heartbeat reports: unless enrolled, it asks for settings first.
  function FirstReport(g: Goal, start: Start): Acks {
    if start.enrolled then start.acks else Acks(g.settings.version, start.acks.passwordVersion)
  }

  predicate Shows(d: Device, acks: Acks) {
    d.appliedPolicy == acks.policyVersion && d.appliedPassword == acks.passwordVersion
  }

  predicate Sealed(h: Host, password: string) { h.managed && h.locked && h.password == password }

  // A node that starts without the current version gets the password; one that
  // starts with it keeps what it has under lock.
  predicate KeepsPassword(g: Goal, start: Start, h: Host) {
    start.acks.passwordVersion == g.cred.version && start.host.managed && start.host.locked ==>
      Sealed(h, start.host.password)
  }

  predicate HasPassword(g: Goal, start: Start, h: Host) {
    KeepsPassword(g, start, h) && (start.acks.passwordVersion != g.cred.version ==> Sealed(h, g.password))
  }

  // The node holds what is current.
  predicate UpToDate(g: Goal, start: Start, a: Node) {
    && a.loop.enrolled && (a.phase == Idle || a.phase == AwaitHeartbeat)
    && a.loop.acks == Acks(g.settings.version, g.cred.version)
    && a.loop.host.servers == g.settings.servers && a.loop.host.managed
    && HasPassword(g, start, a.loop.host)
  }

  // After so many answers to heartbeats: none, one, or more.
  predicate Progress(g: Goal, start: Start, beats: nat, a: Node, d: Device) {
    if beats == 0 then
      && a.loop.acks.passwordVersion == start.acks.passwordVersion && KeepsPassword(g, start, a.loop.host)
      && (start.enrolled ==> a.loop.enrolled)
      && (a.loop.enrolled || a.phase == AwaitEnroll ==> a.loop.acks == FirstReport(g, start))
      && (a.phase == AwaitHeartbeat && a.wire.Answer? ==> Shows(d, FirstReport(g, start)))
    else
      && UpToDate(g, start, a)
      && Shows(d, if beats == 1 && !a.wire.Answer? then FirstReport(g, start)
                  else Acks(g.settings.version, g.cred.version))
  }

  ghost predicate OthersInShape(sys: System, key: string) {
    forall k :: k in sys.nodes && k != key ==> Shape(k, sys.nodes[k])
  }

  ghost predicate CalmInv(master: string, accepts: SettingsCheck, sys: System, key: string, id: int, g: Goal,
                          start: Start, beats: nat)
  {
    && Holds(master, sys.server.db, key, id, g) && accepts(g.settings.servers)
    && key in sys.nodes && OnCourse(key, sys.nodes[key], accepts, g)
    && Progress(g, start, beats, sys.nodes[key], sys.server.db.devices[id])
    && OthersInShape(sys, key)
  }

  // ---------- Others' steps ----------

  // A quiet call leaves the terms, the device's row and its nonces alone.
  ghost predicate LeftAlone(db: Db, db': Db, id: int) {
    && db'.settings == db.settings
    && (id in db.devices ==> id in db'.devices && db'.devices[id] == db.devices[id])
    && (id in db.auth ==> id in db'.auth && db'.auth[id] == db.auth[id])
    && (id in db.creds ==> id in db'.creds && db'.creds[id] == db.creds[id])
    && (forall k :: k in db'.nonces && k.0 == id ==> k in db.nonces)
  }

  lemma QuietEnroll(master: string, s: Server, op: Op, key: string, id: int)
    requires Constraints(s.db) && op.Enroll? && NotSignedBy(op, key) && id in s.db.auth && s.db.auth[id] == key
    ensures LeftAlone(s.db, Step(master, s, op).db, id)
  {
    if EnrollVerdict(s.db, op.admitted, op.req, op.verifyAt, op.commitAt).None? {
      EnrollStep(master, s, op);
    }
  }

  lemma QuietHeartbeat(master: string, s: Server, op: Op, key: string, id: int)
    requires op.Heartbeat? && NotSignedBy(op, key) && id in s.db.auth && s.db.auth[id] == key
    ensures LeftAlone(s.db, Step(master, s, op).db, id)
  {
    if HeartbeatVerdict(master, s.db, op.req, op.verifyAt, op.commitAt).None? {
      HeartbeatStep(master, s, op);
    }
  }

  lemma QuietStep(master: string, s: Server, op: Op, key: string, id: int)
    requires Constraints(s.db) && id in s.db.auth && s.db.auth[id] == key && Quiet(master, s, op, key, id)
    ensures LeftAlone(s.db, Step(master, s, op).db, id)
  {
    if Step(master, s, op).db != s.db {
      if op.Enroll? {
        QuietEnroll(master, s, op, key, id);
      } else if op.Heartbeat? {
        QuietHeartbeat(master, s, op, key, id);
      } else if op.Approve? || op.Reject? || op.Rotate? || op.Reset? {
        ActionStep(master, s, op);
      } else if op.Delete? {
        DeleteStep(master, s, op);
      } else {
        LoggingStep(master, s, op);
      }
    }
  }

  lemma OpenedAlone(master: string, db: Db, db': Db, id: int)
    requires id in db.creds && id in db'.creds && db'.creds[id] == db.creds[id]
    ensures Opened(master, db', id) == Opened(master, db, id)
  {
  }

  lemma HoldsAlone(master: string, db: Db, db': Db, key: string, id: int, g: Goal)
    requires Holds(master, db, key, id, g) && LeftAlone(db, db', id) && TableInv(master, db')
    ensures Holds(master, db', key, id, g)
  {
    OpenedAlone(master, db, db', id);
  }

  // A call by someone else, and whatever it makes of another node.
  lemma CalmElsewhere(master: string, accepts: SettingsCheck, sys: System, sys': System, op: Op, key: string, id: int,
                      g: Goal, start: Start, beats: nat)
    requires CalmInv(master, accepts, sys, key, id, g, start, beats)
    requires Quiet(master, sys.server, op, key, id) && sys'.server == Step(master, sys.server, op)
    requires key in sys'.nodes && sys'.nodes[key] == sys.nodes[key] && OthersInShape(sys', key)
    ensures CalmInv(master, accepts, sys', key, id, g, start, beats)
  {
    QuietStep(master, sys.server, op, key, id);
    TablesKept(master, sys.server.db, op);
    HoldsAlone(master, sys.server.db, sys'.server.db, key, id, g);
  }

  // ---------- Shapes of nodes ----------

  lemma ShapeKept(master: string, accepts: SettingsCheck, sys: System, e: Event, k: string)
    requires !e.Outside? && e.key == k && k in sys.nodes && Shape(k, sys.nodes[k])
    ensures k in Do(master, accepts, sys, e).nodes && Shape(k, Do(master, accepts, sys, e).nodes[k])
  {
  }

  lemma ShapeUnsigned(k: string, a: Node, key: string, admitted: bool, verifyAt: int, commitAt: int)
    requires Shape(k, a) && k != key && (a.wire.AskBootstrap? || a.wire.AskSigned?)
    ensures NotSignedBy(Call(a, admitted, verifyAt, commitAt), key)
  {
  }

  lemma CalmOther(master: string, accepts: SettingsCheck, sys: System, e: Event, key: string, id: int,
                  g: Goal, start: Start, beats: nat)
    requires CalmInv(master, accepts, sys, key, id, g, start, beats)
    requires !e.Outside? && e.key != key
    ensures CalmInv(master, accepts, Do(master, accepts, sys, e), key, id, g, start, beats)
  {
    hide Holds, OnCourse, Progress, Shape, FormatInt;
    if e.key in sys.nodes {
      var sys', a := Do(master, accepts, sys, e), sys.nodes[e.key];
      ShapeKept(master, accepts, sys, e, e.key);
      assert OthersInShape(sys', key);
      if e.Deliver? && (a.wire.AskBootstrap? || a.wire.AskSigned?) {
        var op := Call(a, e.admitted, e.verifyAt, e.commitAt);
        ShapeUnsigned(e.key, a, key, e.admitted, e.verifyAt, e.commitAt);
        CalmElsewhere(master, accepts, sys, sys', op, key, id, g, start, beats);
      }
    }
  }

  // ---------- The node's requests being processed ----------

  lemma BootstrapCalm(master: string, accepts: SettingsCheck, s: Server, key: string, id: int, g: Goal, now: int)
    requires Holds(master, s.db, key, id, g) && accepts(g.settings.servers)
    ensures Step(master, s, Bootstrap(true, now)).db == s.db
    ensures var reply := ReplyTo(master, s, Bootstrap(true, now));
            reply.Published? && GoodPolicy(reply.policy, accepts, g)
  {
    RepliesAreClientValid(master, s.db, Bootstrap(true, now), accepts);
  }

  lemma GenuineIsVerified(key: string, path: string, req: Request, now: int)
    requires Genuine(key, path, req) && InWindow(req.stamp, now)
    ensures Verified(key, path, req, now)
  {
  }

  // What the control plane asks of a known device's enrollment.
  lemma EnrollCalm(master: string, s: Server, key: string, id: int, g: Goal, req: Request, verifyAt: int, commitAt: int)
    requires Holds(master, s.db, key, id, g)
    requires SoundEnrollment(key, g.uuid, req) && InWindow(req.stamp, verifyAt) && (id, req.nonce) !in s.db.nonces
    ensures var op := Enroll(true, req, verifyAt, commitAt);
            Step(master, s, op).db == EnrollEffect(s.db, id, req, commitAt) && ReplyTo(master, s, op).Enrolled?
  {
    hide FormatInt;
    GenuineIsVerified(key, ENROLL_PATH, req, verifyAt);
    FindDeviceUnique(s.db, g.uuid, id);
    EnrollStep(master, s, Enroll(true, req, verifyAt, commitAt));
  }

  lemma HeartbeatCalm(master: string, accepts: SettingsCheck, s: Server, key: string, id: int, g: Goal, acks: Acks,
                      req: Request, verifyAt: int, commitAt: int)
    requires Holds(master, s.db, key, id, g) && accepts(g.settings.servers)
    requires acks.policyVersion <= g.settings.version && acks.passwordVersion <= g.cred.version
    requires SoundHeartbeat(key, g.uuid, acks, req) && InWindow(req.stamp, verifyAt) && (id, req.nonce) !in s.db.nonces
    ensures var op := Heartbeat(req, verifyAt, commitAt);
            && Step(master, s, op).db == HeartbeatEffect(s.db, id, req, commitAt)
            && var reply := ReplyTo(master, s, op);
               reply.Beat? && GoodPolicy(reply.policy, accepts, g) && reply.policy.access == CurrentAccess(g)
  {
    var op := Heartbeat(req, verifyAt, commitAt);
    GenuineIsVerified(key, HEARTBEAT_PATH, req, verifyAt);
    FindDeviceUnique(s.db, g.uuid, id);
    HeartbeatStep(master, s, op);
    RepliesAreClientValid(master, s.db, op, accepts);
  }

  // ---------- The node's own steps ----------

  // Tables after a step of the node's own: the terms hold, only this device's
  // report and nonces may have changed.
  ghost predicate Onward(master: string, accepts: SettingsCheck, sys: System, sys': System, key: string, id: int,
                         g: Goal, a': Node)
  {
    && Holds(master, sys'.server.db, key, id, g)
    && key in sys.nodes && sys'.nodes == sys.nodes[key := a']
    && OnCourse(key, a', accepts, g)
  }

  lemma OnwardKeeps(master: string, accepts: SettingsCheck, sys: System, sys': System, key: string, id: int, g: Goal,
                    start: Start, beats: nat, a': Node, beats': nat)
    requires CalmInv(master, accepts, sys, key, id, g, start, beats)
    requires Onward(master, accepts, sys, sys', key, id, g, a')
    requires Progress(g, start, beats', a', sys'.server.db.devices[id])
    ensures CalmInv(master, accepts, sys', key, id, g, start, beats')
  {
  }

  // Sending a heartbeat, if enrolled, or asking for settings.
  lemma AskedOnCourse(key: string, a: Node, accepts: SettingsCheck, g: Goal, time: int, nonce: string, info: Info)
    requires OnCourse(key, a.(phase := Idle, wire := Silent), accepts, g) && GoodMetadata(nonce, info)
    ensures var a' := Asked(key, a, time, nonce, info);
            && OnCourse(key, a', accepts, g) && a'.loop == a.loop && !a'.wire.Answer?
            && a'.phase == (if a.loop.enrolled then AwaitHeartbeat else AwaitBootstrap)
            && Rank(a') == if a.loop.enrolled then 2 else 6
  {
    InfoBounds(info);
  }

  lemma InfoBounds(info: Info)
    requires Bounded(Texts(info))
    ensures Bounded([info.rustdeskId, info.hostname, info.rustdeskVersion, info.managedVersion])
  {
    var s := Texts(info);
    assert |s[0]| <= 255 && |s[1]| <= 255 && |s[5]| <= 255 && |s[6]| <= 255;
  }

  lemma CalmSend(master: string, accepts: SettingsCheck, sys: System, e: Event, key: string, id: int,
                 g: Goal, start: Start, beats: nat)
    requires CalmInv(master, accepts, sys, key, id, g, start, beats) && Calm(master, sys, e, key, id)
    requires e.Send? && e.key == key && sys.nodes[key].phase == Idle
    ensures var sys' := Do(master, accepts, sys, e);
            && CalmInv(master, accepts, sys', key, id, g, start, beats)
            && Rank(sys'.nodes[key]) + 1 == Rank(sys.nodes[key])
  {
    var a, sys' := sys.nodes[key], Do(master, accepts, sys, e);
    AskedOnCourse(key, a, accepts, g, e.time, e.nonce, e.info);
    OnwardKeeps(master, accepts, sys, sys', key, id, g, start, beats, sys'.nodes[key], beats);
  }

  lemma CalmLocal(master: string, accepts: SettingsCheck, sys: System, e: Event, key: string, id: int,
                  g: Goal, start: Start, beats: nat)
    requires CalmInv(master, accepts, sys, key, id, g, start, beats) && e.Local? && e.key == key
    ensures var sys' := Do(master, accepts, sys, e);
            && CalmInv(master, accepts, sys', key, id, g, start, beats)
            && Rank(sys'.nodes[key]) == Rank(sys.nodes[key])
  {
    var sys' := Do(master, accepts, sys, e);
    OnwardKeeps(master, accepts, sys, sys', key, id, g, start, beats, sys'.nodes[key], beats);
  }

  lemma EnrollHolds(master: string, s: Server, key: string, id: int, g: Goal, op: Op)
    requires Holds(master, s.db, key, id, g) && op.Enroll? && op.req.body.EnrollBody? && op.req.body.publicKey.Some?
    requires Step(master, s, op).db == EnrollEffect(s.db, id, op.req, op.commitAt)
    ensures Holds(master, Step(master, s, op).db, key, id, g)
    ensures Step(master, s, op).db.devices == s.db.devices
  {
    TablesKept(master, s.db, op);
    OpenedAlone(master, s.db, Step(master, s, op).db, id);
  }

  lemma HeartbeatHolds(master: string, s: Server, key: string, id: int, g: Goal, op: Op)
    requires Holds(master, s.db, key, id, g) && op.Heartbeat? && op.req.body.HeartbeatBody?
    requires Step(master, s, op).db == HeartbeatEffect(s.db, id, op.req, op.commitAt)
    ensures var db' := Step(master, s, op).db;
            && Holds(master, db', key, id, g)
            && db'.devices[id].appliedPolicy == op.req.body.policyVersion
            && db'.devices[id].appliedPassword == op.req.body.passwordVersion
  {
    TablesKept(master, s.db, op);
    OpenedAlone(master, s.db, Step(master, s, op).db, id);
  }

  lemma CalmDeliver(master: string, accepts: SettingsCheck, sys: System, e: Event, key: string, id: int,
                    g: Goal, start: Start, beats: nat)
    requires CalmInv(master, accepts, sys, key, id, g, start, beats) && Calm(master, sys, e, key, id)
    requires e.Deliver? && e.key == key && (sys.nodes[key].wire.AskBootstrap? || sys.nodes[key].wire.AskSigned?)
    ensures var sys' := Do(master, accepts, sys, e);
            && CalmInv(master, accepts, sys', key, id, g, start, beats)
            && Rank(sys'.nodes[key]) + 1 == Rank(sys.nodes[key])
  {
    var a, s, sys' := sys.nodes[key], sys.server, Do(master, accepts, sys, e);
    var op := Call(a, e.admitted, e.verifyAt, e.commitAt);
    match a.phase {
      case AwaitBootstrap => BootstrapCalm(master, accepts, s, key, id, g, e.commitAt);
      case AwaitEnroll =>
        EnrollCalm(master, s, key, id, g, a.wire.req, e.verifyAt, e.commitAt);
        EnrollHolds(master, s, key, id, g, op);
      case AwaitHeartbeat =>
        HeartbeatCalm(master, accepts, s, key, id, g, a.loop.acks, a.wire.req, e.verifyAt, e.commitAt);
        HeartbeatHolds(master, s, key, id, g, op);
    }
    OnwardKeeps(master, accepts, sys, sys', key, id, g, start, beats, sys'.nodes[key], beats);
  }

  // Receiving what is current on a host whose calls succeed.
  lemma BootstrapReceivedCalm(key: string, a: Node, accepts: SettingsCheck, g: Goal, start: Start, beats: nat,
                              d: Device, time: int, nonce: string, info: Info)
    requires OnCourse(key, a, accepts, g) && a.phase == AwaitBootstrap && a.wire.Answer? && GoodMetadata(nonce, info)
    requires Progress(g, start, beats, a, d)
    ensures var a' := Received(key, a, accepts, SMOOTH, time, nonce, info);
            OnCourse(key, a', accepts, g) && Rank(a') == 4 && Progress(g, start, beats, a', d)
  {
  }

  lemma EnrollReceivedCalm(key: string, a: Node, accepts: SettingsCheck, g: Goal, start: Start, beats: nat, d: Device,
                           time: int, nonce: string, info: Info)
    requires OnCourse(key, a, accepts, g) && a.phase == AwaitEnroll && a.wire.Answer? && GoodMetadata(nonce, info)
    requires Progress(g, start, beats, a, d)
    ensures var a' := Received(key, a, accepts, SMOOTH, time, nonce, info);
            OnCourse(key, a', accepts, g) && Rank(a') == 2 && Progress(g, start, beats, a', d)
  {
    var a1 := a.(loop := a.loop.(enrolled := true));
    AskedOnCourse(key, a1, accepts, g, time, nonce, info);
  }

  lemma HeartbeatReceivedCalm(key: string, a: Node, accepts: SettingsCheck, g: Goal, start: Start, beats: nat,
                              d: Device, time: int, nonce: string, info: Info)
    requires OnCourse(key, a, accepts, g) && a.phase == AwaitHeartbeat && a.wire.Answer?
    requires Progress(g, start, beats, a, d)
    ensures var a' := Received(key, a, accepts, SMOOTH, time, nonce, info);
            OnCourse(key, a', accepts, g) && Rank(a') == 3 && Progress(g, start, beats + 1, a', d)
  {
  }

  lemma CalmReceive(master: string, accepts: SettingsCheck, sys: System, e: Event, key: string, id: int,
                    g: Goal, start: Start, beats: nat)
    requires CalmInv(master, accepts, sys, key, id, g, start, beats) && Calm(master, sys, e, key, id)
    requires e.Receive? && e.key == key && sys.nodes[key].wire.Answer?
    ensures var sys', done := Do(master, accepts, sys, e), sys.nodes[key].phase == AwaitHeartbeat;
            && CalmInv(master, accepts, sys', key, id, g, start, if done then beats + 1 else beats)
            && Rank(sys'.nodes[key]) + 1 == Rank(sys.nodes[key]) + if done then 3 else 0
  {
    var a, d, sys' := sys.nodes[key], sys.server.db.devices[id], Do(master, accepts, sys, e);
    match a.phase {
      case AwaitBootstrap => BootstrapReceivedCalm(key, a, accepts, g, start, beats, d, e.time, e.nonce, e.info);
      case AwaitEnroll => EnrollReceivedCalm(key, a, accepts, g, start, beats, d, e.time, e.nonce, e.info);
      case AwaitHeartbeat => HeartbeatReceivedCalm(key, a, accepts, g, start, beats, d, e.time, e.nonce, e.info);
    }
    OnwardKeeps(master, accepts, sys, sys', key, id, g, start, beats, sys'.nodes[key],
                if a.phase == AwaitHeartbeat then beats + 1 else beats);
  }

  // One of the node's own events, and how it brings the node forward.
  lemma CalmOwn(master: string, accepts: SettingsCheck, sys: System, e: Event, key: string, id: int,
                g: Goal, start: Start, beats: nat)
    requires CalmInv(master, accepts, sys, key, id, g, start, beats) && Calm(master, sys, e, key, id)
    requires Moves(sys, e, key)
    ensures var sys', beat := Do(master, accepts, sys, e), Beats(sys, e, key);
            && CalmInv(master, accepts, sys', key, id, g, start, if beat then beats + 1 else beats)
            && Rank(sys'.nodes[key]) + 1 == Rank(sys.nodes[key]) + if beat then 3 else 0
  {
    if e.Send? {
      CalmSend(master, accepts, sys, e, key, id, g, start, beats);
    } else if e.Deliver? {
      CalmDeliver(master, accepts, sys, e, key, id, g, start, beats);
    } else {
      CalmReceive(master, accepts, sys, e, key, id, g, start, beats);
    }
  }

  lemma CalmOutside(master: string, accepts: SettingsCheck, sys: System, e: Event, key: string, id: int,
                    g: Goal, start: Start, beats: nat)
    requires CalmInv(master, accepts, sys, key, id, g, start, beats) && Calm(master, sys, e, key, id) && e.Outside?
    ensures var sys' := Do(master, accepts, sys, e);
            CalmInv(master, accepts, sys', key, id, g, start, beats) && sys'.nodes == sys.nodes
  {
    var sys' := Do(master, accepts, sys, e);
    if sys' != sys {
      CalmElsewhere(master, accepts, sys, sys', e.op, key, id, g, start, beats);
    }
  }

  // An event of the node's own that finds nothing to do.
  lemma NothingToDo(master: string, accepts: SettingsCheck, sys: System, e: Event, key: string, id: int)
    requires Calm(master, sys, e, key, id) && !Moves(sys, e, key) && key in sys.nodes
    requires !e.Outside? && !e.Local? && e.key == key
    ensures Do(master, accepts, sys, e) == sys
  {
  }

  lemma OthersKeepNode(master: string, accepts: SettingsCheck, sys: System, e: Event, key: string)
    requires !e.Outside? && e.key != key && key in sys.nodes
    ensures key in Do(master, accepts, sys, e).nodes && Do(master, accepts, sys, e).nodes[key] == sys.nodes[key]
  {
  }

  // Every other event.
  lemma CalmStill(master: string, accepts: SettingsCheck, sys: System, e: Event, key: string, id: int,
                  g: Goal, start: Start, beats: nat)
    requires CalmInv(master, accepts, sys, key, id, g, start, beats) && Calm(master, sys, e, key, id)
    requires !Moves(sys, e, key)
    ensures var sys' := Do(master, accepts, sys, e);
            CalmInv(master, accepts, sys', key, id, g, start, beats) && Rank(sys'.nodes[key]) == Rank(sys.nodes[key])
  {
    if e.Outside? {
      CalmOutside(master, accepts, sys, e, key, id, g, start, beats);
    } else if e.key != key {
      CalmOther(master, accepts, sys, e, key, id, g, start, beats);
      OthersKeepNode(master, accepts, sys, e, key);
    } else if e.Local? {
      CalmLocal(master, accepts, sys, e, key, id, g, start, beats);
    } else {
      NothingToDo(master, accepts, sys, e, key, id);
    }
  }

  lemma {:induction false} CalmRunKept(master: string, accepts: SettingsCheck, sys: System, events: seq<Event>,
                                       key: string, id: int, g: Goal, start: Start)
    requires CalmInv(master, accepts, sys, key, id, g, start, 0) && CalmRun(master, accepts, sys, events, key, id)
    ensures var sys', beats := DoAll(master, accepts, sys, events), CountBeats(master, accepts, sys, events, key);
            && CalmInv(master, accepts, sys', key, id, g, start, beats)
            && Rank(sys'.nodes[key]) + CountMoves(master, accepts, sys, events, key) == Rank(sys.nodes[key]) + 3 * beats
    decreases |events|
  {
    if events == [] {
    } else {
      var before := events[..|events| - 1];
      CalmRunKept(master, accepts, sys, before, key, id, g, start);
      var mid, e := DoAll(master, accepts, sys, before), events[|events| - 1];
      var beats := CountBeats(master, accepts, sys, before, key);
      if Moves(mid, e, key) {
        CalmOwn(master, accepts, mid, e, key, id, g, start, beats);
      } else {
        CalmStill(master, accepts, mid, e, key, id, g, start, beats);
      }
    }
  }

  // ---------- Main results ----------

  // An approved device under the node's key, a node about to begin a round with
  // counters that are not ahead of the tables, and settings that it accepts.
  // The tables may be a restored backup's.
  ghost predicate Ready(master: string, accepts: SettingsCheck, sys: System, key: string, id: int) {
    var db := sys.server.db;
    && TableInv(master, db) && accepts(db.settings.servers)
    && key in sys.nodes && OthersInShape(sys, key)
    && id in db.devices && Registered(sys.server, key, id) && db.devices[id].status == Approved
    && var a := sys.nodes[key];
       && |key| == KEY_SIZE && ValidUuid(a.uuid) && db.devices[id].uuid == a.uuid
       && a.phase == Idle && !a.wire.Answer?
       && a.loop.acks.policyVersion <= db.settings.version
       && a.loop.acks.passwordVersion <= CredVersion(db, id)
  }

  ghost function GoalOf(master: string, db: Db, id: int): Goal
    requires id in db.devices && id in db.creds && Opened(master, db, id).Some?
  {
    Goal(db.devices[id].uuid, db.settings, db.creds[id], Opened(master, db, id).value)
  }

  function StartOf(a: Node): Start { Start(a.loop.acks, a.loop.enrolled, a.loop.host) }

  lemma ReadyIsCalm(master: string, accepts: SettingsCheck, sys: System, key: string, id: int)
    requires Ready(master, accepts, sys, key, id)
    ensures id in sys.server.db.creds && Opened(master, sys.server.db, id).Some?
    ensures CalmInv(master, accepts, sys, key, id, GoalOf(master, sys.server.db, id), StartOf(sys.nodes[key]), 0)
  {
    assert DeviceTables(master, sys.server.db, id);
  }

  // The device and its terms are as they were.
  ghost predicate SameTerms(db: Db, db': Db, id: int) {
    && db'.settings == db.settings
    && id in db.devices && id in db'.devices
    && db'.devices[id].uuid == db.devices[id].uuid && db'.devices[id].status == db.devices[id].status
    && id in db.auth && id in db'.auth && db'.auth[id] == db.auth[id]
    && id in db.creds && id in db'.creds && db'.creds[id] == db.creds[id]
  }

  // Both sides agree, as the tables show it and on the host.
  ghost predicate InStep(master: string, sys: System, key: string, id: int) {
    var db := sys.server.db;
    && id in db.devices && key in sys.nodes && id in db.creds
    && db.devices[id].appliedPolicy == db.settings.version && PasswordSynced(db, id)
    && sys.nodes[key].loop.host.servers == db.settings.servers
    && Opened(master, db, id) == Some(sys.nodes[key].loop.host.password)
    && sys.nodes[key].loop.host.managed && sys.nodes[key].loop.host.locked
  }

  // From any ready state, whatever else goes on: the first answer to a
  // heartbeat makes the node current; from the second one on, both applied
  // versions are the current ones.  A node that did not hold the current
  // password version then has its password, and one that held it under lock
  // has kept it.  The terms are untouched.
  lemma TwoHeartbeatsSettle(master: string, accepts: SettingsCheck, sys: System, events: seq<Event>, key: string,
                            id: int)
    requires Ready(master, accepts, sys, key, id) && CalmRun(master, accepts, sys, events, key, id)
    ensures var last, beats := DoAll(master, accepts, sys, events), CountBeats(master, accepts, sys, events, key);
            && SameTerms(sys.server.db, last.server.db, id) && key in last.nodes
            && var db, a, held := last.server.db, last.nodes[key], sys.nodes[key].loop.acks.passwordVersion;
               && (beats >= 1 ==>
                     && a.loop.acks == Acks(db.settings.version, CredVersion(db, id))
                     && a.loop.host.servers == db.settings.servers
                     && (held != CredVersion(db, id) ==> Opened(master, db, id) == Some(a.loop.host.password))
                     && (held == CredVersion(db, id)
                         && sys.nodes[key].loop.host.managed && sys.nodes[key].loop.host.locked ==>
                           a.loop.host.password == sys.nodes[key].loop.host.password))
               && (beats >= 2 ==>
                     db.devices[id].appliedPolicy == db.settings.version && PasswordSynced(db, id))
               && (beats >= 2 && held != CredVersion(db, id) ==> InStep(master, last, key, id))
  {
    ReadyIsCalm(master, accepts, sys, key, id);
    assert DeviceTables(master, sys.server.db, id);
    CalmRunKept(master, accepts, sys, events, key, id, GoalOf(master, sys.server.db, id), StartOf(sys.nodes[key]));
  }

  // Until the second heartbeat is processed, the device shows what the first
  // one reported, and so it is shown as synchronized exactly if the node already
  // held the current password version: the second is what reports the first.
  lemma OneHeartbeatSyncsIffHeld(master: string, accepts: SettingsCheck, sys: System, events: seq<Event>, key: string,
                                 id: int)
    requires Ready(master, accepts, sys, key, id) && CalmRun(master, accepts, sys, events, key, id)
    requires CountBeats(master, accepts, sys, events, key) == 1
    ensures var last, a := DoAll(master, accepts, sys, events), sys.nodes[key];
            && key in last.nodes && id in last.server.db.devices
            && (!last.nodes[key].wire.Answer? ==>
                  && last.server.db.devices[id].appliedPassword == a.loop.acks.passwordVersion
                  && last.server.db.devices[id].appliedPolicy
                     == (if a.loop.enrolled then a.loop.acks.policyVersion else sys.server.db.settings.version)
                  && (PasswordSynced(last.server.db, id) <==>
                        a.loop.acks.passwordVersion == CredVersion(sys.server.db, id)))
  {
    ReadyIsCalm(master, accepts, sys, key, id);
    assert DeviceTables(master, sys.server.db, id);
    CalmRunKept(master, accepts, sys, events, key, id, GoalOf(master, sys.server.db, id), StartOf(sys.nodes[key]));
  }

  // The node is never stuck, and two answers need no more than ten steps of its
  // own, wherever others come in between.
  lemma TenStepsAreEnough(master: string, accepts: SettingsCheck, sys: System, events: seq<Event>, key: string, id: int)
    requires Ready(master, accepts, sys, key, id) && CalmRun(master, accepts, sys, events, key, id)
    ensures CountMoves(master, accepts, sys, events, key) >= 10 ==> CountBeats(master, accepts, sys, events, key) >= 2
    ensures var last := DoAll(master, accepts, sys, events);
            && key in last.nodes
            && (last.nodes[key].phase == Idle || last.nodes[key].wire != Silent)
  {
    ReadyIsCalm(master, accepts, sys, key, id);
    CalmRunKept(master, accepts, sys, events, key, id, GoalOf(master, sys.server.db, id), StartOf(sys.nodes[key]));
  }

  lemma ReachableIsReady(master: string, accepts: SettingsCheck, sys: System, key: string, id: int)
    requires SystemInv(master, sys) && key in sys.nodes && Registered(sys.server, key, id)
    requires id in sys.server.db.devices && sys.server.db.devices[id].status == Approved
    requires |key| == KEY_SIZE && ValidUuid(sys.nodes[key].uuid)
    requires sys.nodes[key].phase == Idle && accepts(sys.server.db.settings.servers)
    ensures Ready(master, accepts, sys, key, id)
    ensures sys.nodes[key].loop.acks.passwordVersion == CredVersion(sys.server.db, id) ==>
              && Opened(master, sys.server.db, id) == Some(sys.nodes[key].loop.host.password)
              && sys.nodes[key].loop.host.managed && sys.nodes[key].loop.host.locked
  {
    hide FormatInt;
    var a, db := sys.nodes[key], sys.server.db;
    assert NodeInv(sys.server, key, a);
    assert DeviceTruth(sys.server, a, id);
    assert DeviceTables(master, db, id) && DeviceHistory(master, sys.server, id);
    forall k | k in sys.nodes && k != key ensures Shape(k, sys.nodes[k]) {
      assert NodeInv(sys.server, k, sys.nodes[k]);
    }
  }

  // Convergence: from every reachable state in which an approved device is
  // registered under the key of a node between two rounds and the settings are
  // acceptable, any calm run, with whatever else interleaved, in which the node
  // takes ten steps or receives two answers ends in step, and stays so.
  lemma Converges(master: string, accepts: SettingsCheck, first: System, past: seq<Event>, events: seq<Event>,
                  sys: System, key: string, id: int)
    requires Initial(first) && WithinEpochs(master, accepts, first, past) && sys == DoAll(master, accepts, first, past)
    requires key in sys.nodes && sys.nodes[key].phase == Idle && |key| == KEY_SIZE && ValidUuid(sys.nodes[key].uuid)
    requires Registered(sys.server, key, id) && id in sys.server.db.devices
    requires sys.server.db.devices[id].status == Approved
    requires accepts(sys.server.db.settings.servers) && CalmRun(master, accepts, sys, events, key, id)
    requires CountBeats(master, accepts, sys, events, key) >= 2 || CountMoves(master, accepts, sys, events, key) >= 10
    ensures InStep(master, DoAll(master, accepts, sys, events), key, id)
  {
    ReachableSystem(master, accepts, first, past);
    ReachableIsReady(master, accepts, sys, key, id);
    TenStepsAreEnough(master, accepts, sys, events, key, id);
    ReadyIsCalm(master, accepts, sys, key, id);
    assert DeviceTables(master, sys.server.db, id);
    CalmRunKept(master, accepts, sys, events, key, id, GoalOf(master, sys.server.db, id), StartOf(sys.nodes[key]));
  }

  // A node found anywhere else in its loop may first give up what it waits for.
  lemma GivingUpSettles(master: string, accepts: SettingsCheck, sys: System, key: string)
    requires SystemInv(master, sys) && key in sys.nodes
    ensures var sys' := Do(master, accepts, sys, GiveUp(key));
            SystemInv(master, sys') && key in sys'.nodes && sys'.nodes[key].phase == Idle && sys'.server == sys.server
  {
    EventKept(master, accepts, sys, GiveUp(key));
  }
}
