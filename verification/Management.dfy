// The control plane and its agents together.  Every agent owns one key and one
// connection: a request is processed, if ever, before the agent sends its next
// one.  Anyone without an agent's key may send anything else, and may send
// again what an agent sent; anyone on an agent's machine may change its host as
// far as it is not managed.
module Management {
  import opened Text
  import opened Schema
  import opened Messages
  import opened Handlers
  import opened Runs
  import opened Versions
  import opened ReplayGuard
  import opened AgentLoop

  // ---------- State ----------

  datatype Phase = Idle | AwaitBootstrap | AwaitEnroll | AwaitHeartbeat

  // What is under way between an agent and the control plane.  An answer
  // remembers, for the record, the epoch it was given in.
  datatype Wire = Silent | AskBootstrap | AskSigned(req: Request) | Answer(reply: Reply, epoch: nat)

  // `epoch` records in which credential epoch the acknowledged password was obtained.
  datatype Node = Node(uuid: string, phase: Phase, wire: Wire, loop: Loop, epoch: nat)

  // A request that a node has sent, with the epoch that the node's password was
  // from.  Whatever was sent once can be sent again by anyone.
  datatype Sent = Sent(req: Request, epoch: nat)

  datatype System = System(server: Server, nodes: map<string, Node>, sent: set<Sent>)

  ghost predicate Initial(sys: System) {
    && sys.server == FIRST && sys.sent == {}
    && forall key :: key in sys.nodes ==> FreshNode(sys.nodes[key])
  }

  predicate FreshNode(a: Node) {
    a.phase == Idle && a.wire == Silent && a.loop.acks == NO_ACKS && !a.loop.enrolled
  }

  // ---------- Events ----------

  datatype Event =
    | Outside(op: Op)
    | Send(key: string, time: int, nonce: string, info: Info)
    | Deliver(key: string, admitted: bool, verifyAt: int, commitAt: int)
    | Lose(key: string)
    | Receive(key: string, calls: Calls, time: int, nonce: string, info: Info)
    | GiveUp(key: string)
    | Restart(key: string)
    | Local(key: string, change: Host)

  function Sign(key: string, path: string, deviceId: string, time: int, nonce: string, body: Body): Request {
    Request("", deviceId, FormatInt(time), nonce,
            Some(Signature(key, Message(VERB, path, FormatInt(time), nonce, body))), body)
  }

  function EnrollRequest(key: string, a: Node, time: int, nonce: string, info: Info): Request {
    Sign(key, ENROLL_PATH, a.uuid, time, nonce, EnrollBody(a.uuid, Some(key), info, time))
  }

  function HeartbeatRequest(key: string, a: Node, time: int, nonce: string, info: Info): Request {
    Sign(key, HEARTBEAT_PATH, a.uuid, time, nonce,
         HeartbeatBody(info, a.loop.acks.policyVersion, a.loop.acks.passwordVersion))
  }

  // Requests that do not carry the key's signature.
  predicate NotSignedBy(op: Op, key: string) {
    op.Enroll? || op.Heartbeat? ==> op.req.signature.None? || op.req.signature.value.signer != key
  }

  // Requests that carry no node's signature.
  ghost predicate Unsigned(sys: System, op: Op) {
    forall key :: key in sys.nodes ==> NotSignedBy(op, key)
  }

  ghost predicate Resent(sys: System, op: Op) {
    FromAgent(op) && exists x :: x in sys.sent && x.req == op.req
  }

  function Outgoing(a: Node): set<Sent> {
    if a.wire.AskSigned? then {Sent(a.wire.req, a.epoch)} else {}
  }

  // The call that the control plane makes of what is on the wire.
  function Call(a: Node, admitted: bool, verifyAt: int, commitAt: int): Op
    requires a.wire.AskBootstrap? || a.wire.AskSigned?
  {
    if a.wire.AskBootstrap? then Bootstrap(admitted, commitAt)
    else if a.wire.req.body.EnrollBody? then Enroll(admitted, a.wire.req, verifyAt, commitAt)
    else Heartbeat(a.wire.req, verifyAt, commitAt)
  }

  ghost function CurrentEpoch(s: Server, uuid: string): nat {
    match FindDevice(s.db, uuid)
    case Some(id) => EpochOf(s.hist, id)
    case None => 0
  }

  function Asked(key: string, a: Node, time: int, nonce: string, info: Info): Node {
    if a.loop.enrolled then a.(phase := AwaitHeartbeat, wire := AskSigned(HeartbeatRequest(key, a, time, nonce, info)))
    else a.(phase := AwaitBootstrap, wire := AskBootstrap)
  }

  function Abandoned(a: Node, loop: Loop): Node {
    a.(phase := Idle, loop := loop, wire := if a.wire.Answer? then Silent else a.wire)
  }

  // The node on receiving the answer that is on its wire.
  function Received(key: string, a: Node, accepts: SettingsCheck, calls: Calls, time: int, nonce: string,
                    info: Info): Node
    requires a.wire.Answer?
  {
    match a.phase
    case AwaitBootstrap =>
      if !a.wire.reply.Published? then Abandoned(a, Failed(a.loop))
      else
        var (loop, ok) := AfterBootstrap(a.loop, a.wire.reply.policy, accepts, calls.servers);
        if !ok then Abandoned(a, loop)
        else
          var a1 := a.(loop := loop);
          a1.(phase := AwaitEnroll, wire := AskSigned(EnrollRequest(key, a1, time, nonce, info)))
    case AwaitEnroll =>
      if !a.wire.reply.Enrolled? then Abandoned(a, Failed(a.loop))
      else Asked(key, a.(loop := a.loop.(enrolled := true)), time, nonce, info)
    case AwaitHeartbeat =>
      if !a.wire.reply.Beat? then Abandoned(a, Failed(a.loop))
      else
        var loop := AfterHeartbeat(a.loop, a.wire.reply.policy, accepts, calls);
        var changed := loop.acks.passwordVersion != a.loop.acks.passwordVersion;
        Abandoned(a, loop).(epoch := if changed then a.wire.epoch else a.epoch)
    case Idle => a
  }

  ghost function Answered(master: string, s: Server, a: Node, op: Op): Node {
    var s' := Step(master, s, op);
    a.(wire := if a.phase == Idle then Silent else Answer(ReplyTo(master, s, op), CurrentEpoch(s', a.uuid)))
  }

  // A node goes on, and what it sends is remembered.
  function Sends(sys: System, key: string, a: Node): System {
    sys.(nodes := sys.nodes[key := a], sent := sys.sent + Outgoing(a))
  }

  ghost function Do(master: string, accepts: SettingsCheck, sys: System, e: Event): System {
    if e.Outside? then
      if Unsigned(sys, e.op) || Resent(sys, e.op)
      then sys.(server := Step(master, sys.server, e.op)) else sys
    else if e.key !in sys.nodes then sys
    else
      var a := sys.nodes[e.key];
      match e
      case Send(key, time, nonce, info) =>
        if a.phase == Idle then Sends(sys, key, Asked(key, a, time, nonce, info)) else sys
      case Deliver(key, admitted, verifyAt, commitAt) =>
        if a.wire.AskBootstrap? || a.wire.AskSigned? then
          var op := Call(a, admitted, verifyAt, commitAt);
          sys.(server := Step(master, sys.server, op), nodes := sys.nodes[key := Answered(master, sys.server, a, op)])
        else sys
      case Lose(key) => sys.(nodes := sys.nodes[key := a.(wire := Silent)])
      case Receive(key, calls, time, nonce, info) =>
        if a.wire.Answer? then Sends(sys, key, Received(key, a, accepts, calls, time, nonce, info)) else sys
      case GiveUp(key) => sys.(nodes := sys.nodes[key := Abandoned(a, Failed(a.loop))])
      case Restart(key) =>
        sys.(nodes := sys.nodes[key := Abandoned(a, Loop(NO_ACKS, false, 0, a.loop.host))])
      case Local(key, change) =>
        sys.(nodes := sys.nodes[key := a.(loop := a.loop.(host := HostAfterLocal(a.loop.host, change)))])
  }

  ghost function DoAll(master: string, accepts: SettingsCheck, sys: System, events: seq<Event>): System
    decreases |events|
  {
    if events == [] then sys
    else Do(master, accepts, DoAll(master, accepts, sys, events[..|events| - 1]), events[|events| - 1])
  }

  // The calls that the control plane handles in the course of a run.
  ghost function OpsOf(master: string, accepts: SettingsCheck, sys: System, events: seq<Event>): seq<Op>
    decreases |events|
  {
    if events == [] then []
    else
      var before := events[..|events| - 1];
      OpsOf(master, accepts, sys, before) + OpOf(DoAll(master, accepts, sys, before), events[|events| - 1])
  }

  ghost function OpOf(sys: System, e: Event): seq<Op> {
    if e.Outside? then if Unsigned(sys, e.op) || Resent(sys, e.op) then [e.op] else []
    else if e.Deliver? && e.key in sys.nodes
            && (sys.nodes[e.key].wire.AskBootstrap? || sys.nodes[e.key].wire.AskSigned?)
    then [Call(sys.nodes[e.key], e.admitted, e.verifyAt, e.commitAt)]
    else []
  }

  lemma ServerOfStep(master: string, accepts: SettingsCheck, sys: System, e: Event)
    ensures Do(master, accepts, sys, e).server == Run(master, sys.server, OpOf(sys, e))
  {
    var ops := OpOf(sys, e);
    if ops != [] {
      assert ops[..|ops| - 1] == [];
    }
  }

  lemma {:induction false} ServerOfRun(master: string, accepts: SettingsCheck, sys: System, events: seq<Event>)
    ensures DoAll(master, accepts, sys, events).server == Run(master, sys.server, OpsOf(master, accepts, sys, events))
    decreases |events|
  {
    if events == [] {
    } else {
      var before := events[..|events| - 1];
      ServerOfRun(master, accepts, sys, before);
      ServerOfStep(master, accepts, DoAll(master, accepts, sys, before), events[|events| - 1]);
      RunConcat(master, sys.server, OpsOf(master, accepts, sys, before),
                OpOf(DoAll(master, accepts, sys, before), events[|events| - 1]));
    }
  }

  // ---------- Requests sent again ----------

  // Some device is in the epoch.
  ghost predicate Current(h: History, epoch: nat) {
    exists id :: id in h.epochOf && h.epochOf[id] == epoch
  }

  // A node that neither holds nor reports nor is being told a password.
  predicate HoldsNothing(a: Node) {
    && a.loop.acks.passwordVersion == 0 && !Grants(a)
    && (a.wire.AskSigned? && a.wire.req.body.HeartbeatBody? ==> a.wire.req.body.passwordVersion == 0)
  }

  // A heartbeat sent again speaks of no password or of its own epoch's; an
  // enrollment finds its device registered, or its node without a password.
  ghost predicate InOwnEpoch(sys: System, op: Op)
    requires FromAgent(op)
  {
    var req := op.req;
    match req.body
    case HeartbeatBody(_, _, version) =>
      exists x :: x in sys.sent && x.req == req && (version == 0 || Current(sys.server.hist, x.epoch))
    case EnrollBody(uuid, key, _, _) =>
      || (FindDevice(sys.server.db, uuid).Some? && FindDevice(sys.server.db, uuid).value in sys.server.db.auth)
      || (key.Some? && key.value in sys.nodes && HoldsNothing(sys.nodes[key.value]))
  }

  // Sending again is harmless if it is refused or stays within the epoch.
  ghost predicate Harmless(master: string, sys: System, e: Event) {
    e.Outside? && !Unsigned(sys, e.op) && Resent(sys, e.op) ==>
      Step(master, sys.server, e.op) == sys.server || InOwnEpoch(sys, e.op)
  }

  // A run in which requests are sent again, at any time, in any order and any
  // number of times, but never across a reset of their device.
  ghost predicate WithinEpochs(master: string, accepts: SettingsCheck, sys: System, events: seq<Event>)
    decreases |events|
  {
    events == [] ||
    (&& WithinEpochs(master, accepts, sys, events[..|events| - 1])
     && Harmless(master, DoAll(master, accepts, sys, events[..|events| - 1]), events[|events| - 1]))
  }

  // ---------- A node runs the agent's loop ----------

  // One trip of a node, given what the control plane answers, if asked.
  function NodeTrip(key: string, a: Node, accepts: SettingsCheck, boot: Reply, join: Reply, beat: Reply,
                    first: Calls, last: Calls, time: int, nonce: string, info: Info): Node
  {
    var a1 := Asked(key, a, time, nonce, info);
    var a2 := if a1.phase != AwaitBootstrap then a1
              else Received(key, a1.(wire := Answer(boot, 0)), accepts, first, time, nonce, info);
    var a3 := if a2.phase != AwaitEnroll then a2
              else Received(key, a2.(wire := Answer(join, 0)), accepts, first, time, nonce, info);
    if a3.phase != AwaitHeartbeat then a3
    else Received(key, a3.(wire := Answer(beat, 0)), accepts, last, time, nonce, info)
  }

  // Message by message, a node goes through exactly one round of the loop.
  lemma NodeRunsTheLoop(key: string, a: Node, accepts: SettingsCheck, boot: Reply, join: Reply, beat: Reply,
                        first: Calls, last: Calls, time: int, nonce: string, info: Info)
    requires a.phase == Idle
    ensures var a' := NodeTrip(key, a, accepts, boot, join, beat, first, last, time, nonce, info);
            && a'.phase == Idle
            && a'.loop == AfterRound(a.loop,
                                     Round(if boot.Published? then Some(boot.policy) else None, first.servers,
                                           join.Enrolled?, if beat.Beat? then Some(beat.policy) else None, last),
                                     accepts)
  {
  }

  // ---------- The invariant of one node ----------

  ghost predicate Registered(s: Server, key: string, id: int) {
    id in s.db.auth && s.db.auth[id] == key
  }

  // A nonzero policy version names the settings installed on the managed host.
  predicate PolicyClaim(h: History, host: Host, version: int) {
    version > 0 ==> version <= |h.settingsLog| && host.servers == h.settingsLog[version - 1] && host.managed
  }

  // A nonzero password version names the password installed and locked.
  predicate PasswordClaim(h: History, id: int, host: Host, version: int) {
    version > 0 ==>
      version <= |Passwords(h, id)| && host.password == Passwords(h, id)[version - 1] && host.managed && host.locked
  }

  predicate Carries(a: Node) { a.wire.Answer? && (a.wire.reply.Published? || a.wire.reply.Beat?) }

  predicate Grants(a: Node) { a.wire.Answer? && a.wire.reply.Beat? && a.wire.reply.policy.access.Some? }

  // Where a node is in its loop determines what can be on its wire.
  predicate Shape(key: string, a: Node) {
    && (a.loop.acks.passwordVersion > 0 ==> a.loop.enrolled)
    && (match a.phase
        case Idle =>
          && !a.wire.Answer?
          && (!a.loop.enrolled ==> a.loop.acks == NO_ACKS) && (a.loop.enrolled ==> a.wire == Silent)
        case AwaitBootstrap => !a.loop.enrolled && a.loop.acks == NO_ACKS && !a.wire.AskSigned?
        case AwaitEnroll =>
          && !a.loop.enrolled && !a.wire.AskBootstrap?
          && (a.wire.AskSigned? ==> a.wire.req.body.EnrollBody?)
        case AwaitHeartbeat =>
          && a.loop.enrolled && !a.wire.AskBootstrap?
          && (a.wire.AskSigned? ==> a.wire.req.body.HeartbeatBody?))
    && (a.wire.AskSigned? ==>
          && a.wire.req.signature.Some? && a.wire.req.signature.value.signer == key
          && (a.wire.req.body.EnrollBody? ==> a.wire.req.body.uuid == a.uuid && a.wire.req.body.publicKey == Some(key))
          && (a.wire.req.body.HeartbeatBody? ==> a.wire.req.deviceId == a.uuid))
  }

  // What a node says and carries about settings, registered or not.
  ghost predicate PolicyTruth(h: History, a: Node) {
    && PolicyClaim(h, a.loop.host, a.loop.acks.policyVersion)
    && (a.wire.AskSigned? && a.wire.req.body.HeartbeatBody? ==>
          PolicyClaim(h, a.loop.host, a.wire.req.body.policyVersion))
    && (Carries(a) ==>
          var p := a.wire.reply.policy; PublicationOk(h, Publication(p.policyVersion, ServersOf(p.rustdesk))))
  }

  // What holds of a node and the device registered under its key.
  ghost predicate DeviceTruth(s: Server, a: Node, id: int) {
    && id in s.db.devices
    && s.db.devices[id].uuid == a.uuid
    && PasswordClaim(s.hist, id, a.loop.host, a.loop.acks.passwordVersion)
    && (a.loop.acks.passwordVersion > 0 ==> a.epoch == EpochOf(s.hist, id))
    && (a.wire.AskSigned? && a.wire.req.body.HeartbeatBody? ==>
          PasswordClaim(s.hist, id, a.loop.host, a.wire.req.body.passwordVersion))
    && (Carries(a) ==> s.db.devices[id].appliedPolicy <= a.wire.reply.policy.policyVersion)
    && (Grants(a) ==> a.wire.epoch == EpochOf(s.hist, id) && GrantTruth(s, id, a.wire.reply.policy.access.value))
    && InstalledTruth(s, a.loop.host, id)
  }

  ghost predicate GrantTruth(s: Server, id: int, g: Access)
    requires id in s.db.devices
  {
    && 1 <= g.passwordVersion <= |Passwords(s.hist, id)|
    && g.password == Passwords(s.hist, id)[g.passwordVersion - 1]
    && s.db.devices[id].appliedPassword <= g.passwordVersion
  }

  // What the tables show as applied is what the host has.
  ghost predicate InstalledTruth(s: Server, host: Host, id: int)
    requires id in s.db.devices
  {
    var passwords := Passwords(s.hist, id);
    && (s.db.devices[id].appliedPassword == |passwords| > 0 ==>
          host.password == passwords[|passwords| - 1] && host.managed && host.locked)
    && (s.db.devices[id].appliedPolicy == |s.hist.settingsLog| > 0 ==>
          host.servers == s.hist.settingsLog[|s.hist.settingsLog| - 1] && host.managed)
  }

  ghost predicate NodeInv(s: Server, key: string, a: Node) {
    && Shape(key, a)
    && PolicyTruth(s.hist, a)
    && HeldTruth(s, key, a)
    && forall id :: Registered(s, key, id) ==> DeviceTruth(s, a, id)
  }

  // Whatever device is in the epoch is registered under the key.
  ghost predicate EpochOwned(s: Server, key: string, epoch: nat) {
    && epoch < |s.hist.epochs|
    && forall id :: id in s.hist.epochOf && s.hist.epochOf[id] == epoch ==> Registered(s, key, id)
  }

  // Passwords held, or on their way, are from epochs of the node's own key.
  ghost predicate HeldTruth(s: Server, key: string, a: Node) {
    && (a.loop.acks.passwordVersion > 0 ==> EpochOwned(s, key, a.epoch))
    && (Grants(a) ==> EpochOwned(s, key, a.wire.epoch))
  }

  // A request once sent stays true in what it says, as long as nothing newer
  // has come.
  ghost predicate SentTruth(s: Server, key: string, a: Node, x: Sent) {
    var b := x.req.body;
    && x.req.signature.Some? && x.req.signature.value.signer == key
    && (b.EnrollBody? ==> b.uuid == a.uuid && b.publicKey == Some(key))
    && (b.HeartbeatBody? ==>
          && x.req.deviceId == a.uuid && 0 <= b.passwordVersion
          && PolicyNews(s.hist, a.loop.host, b.policyVersion)
          && (Carries(a) ==> b.policyVersion <= a.wire.reply.policy.policyVersion)
          && (b.passwordVersion > 0 ==>
                && EpochOwned(s, key, x.epoch)
                && forall id :: id in s.hist.epochOf && s.hist.epochOf[id] == x.epoch ==>
                     && PasswordNews(s.hist, id, a.loop.host, b.passwordVersion)
                     && (Grants(a) ==> b.passwordVersion <= a.wire.reply.policy.access.value.passwordVersion)))
  }

  predicate PolicyNews(h: History, host: Host, version: int) {
    && version <= |h.settingsLog|
    && (version == |h.settingsLog| > 0 ==> host.servers == h.settingsLog[version - 1] && host.managed)
  }

  predicate PasswordNews(h: History, id: int, host: Host, version: int) {
    && version <= |Passwords(h, id)|
    && (version == |Passwords(h, id)| > 0 ==>
          host.password == Passwords(h, id)[version - 1] && host.managed && host.locked)
  }

  ghost predicate SentInv(sys: System) {
    forall x :: x in sys.sent ==>
      && x.req.signature.Some? && x.req.signature.value.signer in sys.nodes
      && SentTruth(sys.server, x.req.signature.value.signer, sys.nodes[x.req.signature.value.signer], x)
  }

  ghost predicate SystemInv(master: string, sys: System) {
    && Inv(master, sys.server)
    && (forall key :: key in sys.nodes ==> NodeInv(sys.server, key, sys.nodes[key]))
    && SentInv(sys)
  }

  // ---------- Steps of the control plane that a node did not ask for ----------

  // Every device still under the key is in the same epoch with the same
  // reports; passwords and settings can only have been appended.
  ghost predicate Stable(s: Server, s': Server, key: string) {
    forall id :: Registered(s', key, id) ==>
      && Registered(s, key, id) && SameEpoch(s, s', id)
      && id in s.db.devices && id in s'.db.devices
      && s.db.devices[id].uuid == s'.db.devices[id].uuid
      && s.db.devices[id].appliedPolicy == s'.db.devices[id].appliedPolicy
      && s.db.devices[id].appliedPassword == s'.db.devices[id].appliedPassword
  }

  lemma StableEnrollEffect(s: Server, id: int, req: Request, commitAt: int, key: string)
    requires LogsInv(s.hist) && s.hist.epochOf.Keys == s.db.devices.Keys && s.db.auth.Keys <= s.db.devices.Keys
    requires req.body.EnrollBody? && req.body.publicKey.Some? && req.body.publicKey.value != key
    ensures Stable(s, Server(EnrollEffect(s.db, id, req, commitAt), EnrolledHistory(s, id, req)), key)
  {
  }

  lemma StableEnroll(master: string, s: Server, op: Op, key: string)
    requires FrameInv(s) && op.Enroll? && NotSignedBy(op, key)
    ensures Stable(s, Step(master, s, op), key)
  {
    if EnrollVerdict(s.db, op.admitted, op.req, op.verifyAt, op.commitAt).None? {
      EnrollStep(master, s, op);
      StableEnrollEffect(s, EnrollTarget(s.db, op.req.body.uuid), op.req, op.commitAt, key);
    }
  }

  lemma StableHeartbeat(master: string, s: Server, op: Op, key: string)
    requires FrameInv(s) && op.Heartbeat? && NotSignedBy(op, key)
    ensures Stable(s, Step(master, s, op), key)
  {
    if HeartbeatVerdict(master, s.db, op.req, op.verifyAt, op.commitAt).None? {
      HeartbeatStep(master, s, op);
      assert s.db.auth[FindDevice(s.db, op.req.deviceId).value] != key;
    }
  }

  lemma StableAdmin(master: string, s: Server, op: Op, key: string)
    requires FrameInv(s) && !op.Enroll? && !op.Heartbeat?
    ensures Stable(s, Step(master, s, op), key)
  {
    if op.Approve? || op.Reject? || op.Rotate? || op.Reset? {
      if ActionVerdict(s.db, op).None? {
        ActionStep(master, s, op);
      }
    } else if op.Delete? {
      DeleteStep(master, s, op);
    } else if op.PutSettings? && op.servers != s.db.settings.servers {
      SettingsStep(master, s, op);
    } else {
      LoggingStep(master, s, op);
    }
  }

  lemma StableStep(master: string, s: Server, op: Op, key: string)
    requires FrameInv(s) && NotSignedBy(op, key)
    ensures Stable(s, Step(master, s, op), key)
  {
    if op.Enroll? {
      StableEnroll(master, s, op, key);
    } else if op.Heartbeat? {
      StableHeartbeat(master, s, op, key);
    } else {
      StableAdmin(master, s, op, key);
    }
  }
}
