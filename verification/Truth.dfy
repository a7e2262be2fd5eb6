// In every run of the control plane with its agents, what the tables show as
// installed is installed.
module Truth {
  import opened Text
  import opened Schema
  import opened Messages
  import opened Handlers
  import opened Runs
  import opened ReplayGuard
  import opened Versions
  import opened AgentLoop
  import opened Management

  // ---------- Nodes that took no part in a step ----------

  lemma PolicyTruthKept(h: History, h': History, a: Node)
    requires PolicyTruth(h, a) && h.settingsLog <= h'.settingsLog
    ensures PolicyTruth(h', a)
  {
  }

  lemma DeviceTruthKept(s: Server, s': Server, a: Node, id: int)
    requires DeviceTruth(s, a, id) && SameEpoch(s, s', id) && id in s'.db.devices
    requires s.db.devices[id].uuid == s'.db.devices[id].uuid
    requires s.db.devices[id].appliedPolicy == s'.db.devices[id].appliedPolicy <= |s.hist.settingsLog|
    requires s.db.devices[id].appliedPassword == s'.db.devices[id].appliedPassword <= |Passwords(s.hist, id)|
    requires s.hist.settingsLog <= s'.hist.settingsLog
    requires Passwords(s.hist, id) <= Passwords(s'.hist, id)
    ensures DeviceTruth(s', a, id)
  {
  }

  lemma NodeKept(master: string, s: Server, s': Server, key: string, a: Node)
    requires Inv(master, s) && Inv(master, s') && NodeInv(s, key, a)
    requires Evolves(s, s') && Stable(s, s', key)
    ensures NodeInv(s', key, a)
  {
    PolicyTruthKept(s.hist, s'.hist, a);
    HeldTruthKept(s, s', key, a);
    forall id | Registered(s', key, id) ensures DeviceTruth(s', a, id) {
      assert Registered(s, key, id) && DeviceTruth(s, a, id);
      assert DeviceTables(master, s.db, id) && DeviceHistory(master, s, id);
      assert DeviceTables(master, s'.db, id) && DeviceHistory(master, s', id);
      PasswordsGrow(s, s', id);
      DeviceTruthKept(s, s', a, id);
    }
  }

  lemma EpochOwnedKept(s: Server, s': Server, key: string, epoch: nat)
    requires EpochOwned(s, key, epoch) && Evolves(s, s')
    ensures EpochOwned(s', key, epoch)
  {
    forall id | id in s'.hist.epochOf && s'.hist.epochOf[id] == epoch ensures Registered(s', key, id) {
      assert SameEpoch(s, s', id) && Registered(s, key, id);
    }
  }

  lemma HeldTruthKept(s: Server, s': Server, key: string, a: Node)
    requires HeldTruth(s, key, a) && Evolves(s, s')
    ensures HeldTruth(s', key, a)
  {
    if a.loop.acks.passwordVersion > 0 {
      EpochOwnedKept(s, s', key, a.epoch);
    }
    if Grants(a) {
      EpochOwnedKept(s, s', key, a.wire.epoch);
    }
  }

  lemma PasswordsGrow(s: Server, s': Server, id: int)
    requires Evolves(s, s') && SameEpoch(s, s', id)
    requires id in s.hist.epochOf && s.hist.epochOf[id] < |s.hist.epochs|
    ensures Passwords(s.hist, id) <= Passwords(s'.hist, id)
  {
  }

  // A step of the control plane keeps every node that did not sign for it.
  lemma OthersKept(master: string, s: Server, op: Op, key: string, a: Node)
    requires Inv(master, s) && NodeInv(s, key, a) && NotSignedBy(op, key)
    ensures NodeInv(Step(master, s, op), key, a)
  {
    KeptByStep(master, s, op);
    FrameOf(master, s);
    StepEvolves(master, s, op);
    StableStep(master, s, op, key);
    NodeKept(master, s, Step(master, s, op), key, a);
  }

  // ---------- A node's own request being processed ----------

  // Refused requests change nothing and carry nothing.
  lemma RefusedKept(s: Server, key: string, a: Node, a': Node)
    requires NodeInv(s, key, a) && (a.wire.AskBootstrap? || a.wire.AskSigned?)
    requires a'.wire == Silent || (a.phase != Idle && a'.wire.Answer? && !Carries(a'))
    requires a' == a.(wire := a'.wire)
    ensures NodeInv(s, key, a')
  {
  }

  lemma BootstrapAnswered(master: string, s: Server, key: string, a: Node, now: int)
    requires Inv(master, s) && NodeInv(s, key, a) && a.wire.AskBootstrap?
    ensures NodeInv(Step(master, s, Bootstrap(true, now)), key, Answered(master, s, a, Bootstrap(true, now)))
  {
    var op := Bootstrap(true, now);
    var s', a' := Step(master, s, op), Answered(master, s, a, op);
    OthersKept(master, s, op, key, a);
    forall id | Registered(s', key, id) ensures DeviceTruth(s', a', id) {
      assert DeviceTruth(s', a, id);
      assert DeviceTables(master, s.db, id);
    }
  }

  // A device newly registered under a key starts with nothing to show.
  lemma EnrollAnswered(master: string, s: Server, key: string, a: Node, op: Op)
    requires Inv(master, s) && NodeInv(s, key, a) && a.wire.AskSigned? && op.Enroll? && op.req == a.wire.req
    requires EnrollVerdict(s.db, op.admitted, op.req, op.verifyAt, op.commitAt).None?
    ensures NodeInv(Step(master, s, op), key, Answered(master, s, a, op))
  {
    EnrollStep(master, s, op);
    KeptByStep(master, s, op);
    var id := EnrollTarget(s.db, op.req.body.uuid);
    EnrolledNode(master, s, Step(master, s, op), key, a, Answered(master, s, a, op), id, op);
  }

  lemma EnrolledNode(master: string, s: Server, s': Server, key: string, a: Node, a': Node, id: int, op: Op)
    requires Inv(master, s) && Inv(master, s') && NodeInv(s, key, a)
    requires a.wire.AskSigned? && op.Enroll? && op.req == a.wire.req && op.req.body.EnrollBody?
    requires op.req.body.publicKey == Some(key) && id == EnrollTarget(s.db, op.req.body.uuid)
    requires s' == Server(EnrollEffect(s.db, id, op.req, op.commitAt), EnrolledHistory(s, id, op.req))
    requires a' == a.(wire := a'.wire)
    requires a'.wire == Silent || (a.phase != Idle && a'.wire.Answer? && !Carries(a'))
    ensures NodeInv(s', key, a')
  {
    FrameOf(master, s);
    if id !in s.db.auth {
      NewlyRegistered(master, s, s', id, op);
    }
    forall i | Registered(s', key, i) ensures DeviceTruth(s', a', i) {
      EnrolledTruth(s, s', key, a, a', i, id, op);
    }
  }

  lemma EnrolledTruth(s: Server, s': Server, key: string, a: Node, a': Node, i: int, id: int, op: Op)
    requires FrameInv(s) && NodeInv(s, key, a) && Registered(s', key, i)
    requires a.wire.AskSigned? && op.Enroll? && op.req == a.wire.req && op.req.body.EnrollBody?
    requires op.req.body.publicKey == Some(key)
    requires s' == Server(EnrollEffect(s.db, id, op.req, op.commitAt), EnrolledHistory(s, id, op.req))
    requires id !in s.db.auth ==> FreshDevice(s', id, a.uuid)
    requires a' == a.(wire := a'.wire)
    requires a'.wire == Silent || (a.phase != Idle && a'.wire.Answer? && !Carries(a'))
    ensures DeviceTruth(s', a', i)
  {
    assert a.loop.acks.passwordVersion == 0;
    if Registered(s, key, i) {
      assert DeviceTruth(s, a, i);
      EnrollKeepsTruth(s, s', a, a', i, id, op);
    }
  }

  // A device that has reported nothing and was given nothing.
  ghost predicate FreshDevice(s: Server, id: int, uuid: string) {
    && id in s.db.devices && s.db.devices[id].uuid == uuid
    && s.db.devices[id].appliedPolicy == 0 && s.db.devices[id].appliedPassword == 0
    && Passwords(s.hist, id) == []
  }

  lemma EnrollKeepsTruth(s: Server, s': Server, a: Node, a': Node, i: int, id: int, op: Op)
    requires DeviceTruth(s, a, i) && LogsInv(s.hist) && i in s.hist.epochOf && (i == id ==> id in s.db.devices)
    requires op.Enroll? && op.req.body.EnrollBody? && op.req.body.publicKey.Some?
    requires s' == Server(EnrollEffect(s.db, id, op.req, op.commitAt), EnrolledHistory(s, id, op.req))
    requires a' == a.(wire := a'.wire)
    requires a'.wire == Silent || (a'.wire.Answer? && !Carries(a'))
    ensures DeviceTruth(s', a', i)
  {
  }

  lemma NewlyRegistered(master: string, s: Server, s': Server, id: int, op: Op)
    requires Inv(master, s) && Inv(master, s') && id !in s.db.auth
    requires op.Enroll? && op.req.body.EnrollBody? && op.req.body.publicKey.Some?
    requires id == EnrollTarget(s.db, op.req.body.uuid)
    requires s' == Server(EnrollEffect(s.db, id, op.req, op.commitAt), EnrolledHistory(s, id, op.req))
    ensures FreshDevice(s', id, op.req.body.uuid)
  {
  }

  // An accepted heartbeat records the node's own claims, and is answered with
  // what is current.
  lemma HeartbeatAnswered(master: string, s: Server, key: string, a: Node, op: Op)
    requires Inv(master, s) && NodeInv(s, key, a) && a.wire.AskSigned? && op.Heartbeat? && op.req == a.wire.req
    requires HeartbeatVerdict(master, s.db, op.req, op.verifyAt, op.commitAt).None?
    ensures NodeInv(Step(master, s, op), key, Answered(master, s, a, op))
  {
    hide FormatInt;
    HeartbeatStep(master, s, op);
    FrameOf(master, s);
    var id := FindDevice(s.db, op.req.deviceId).value;
    assert DeviceTables(master, s.db, id) && DeviceHistory(master, s, id);
    StillFound(s.db, id, op.req, op.commitAt);
    var p := ReplyTo(master, s, op).policy;
    if p.access.Some? {
      GrantedIsLast(master, s, id, p.access.value);
    }
    BeatAnswered(s, Step(master, s, op), key, a, Answered(master, s, a, op), id, op.commitAt, p);
  }

  // The same with the step spelt out.
  lemma BeatAnswered(s: Server, s': Server, key: string, a: Node, a': Node, id: int, commitAt: int, p: Policy)
    requires FrameInv(s) && NodeInv(s, key, a) && id in s.db.devices && Registered(s, key, id)
    requires a.wire.AskSigned? && a.wire.req.body.HeartbeatBody?
    requires 0 <= a.wire.req.body.policyVersion <= s.db.settings.version
    requires 0 <= a.wire.req.body.passwordVersion <= |Passwords(s.hist, id)|
    requires p.policyVersion == s.db.settings.version && ServersOf(p.rustdesk) == s.db.settings.servers
    requires p.access.Some? ==>
               && p.access.value.passwordVersion == |Passwords(s.hist, id)| >= 1
               && p.access.value.password == Passwords(s.hist, id)[p.access.value.passwordVersion - 1]
    requires s' == Server(HeartbeatEffect(s.db, id, a.wire.req, commitAt), RecordBeat(s.hist, id, a.wire.req, p))
    requires a' == a.(wire := if a.phase == Idle then Silent else Answer(Beat(p), EpochOf(s'.hist, id)))
    ensures NodeInv(s', key, a')
  {
    RecordBeatKeeps(s.hist, id, a.wire.req, p);
    BeatenNode(s, s', key, a, a', id, p);
  }

  lemma BeatenNode(s: Server, s': Server, key: string, a: Node, a': Node, id: int, p: Policy)
    requires FrameInv(s) && NodeInv(s, key, a) && Registered(s, key, id) && s'.db.auth == s.db.auth
    requires a.wire.AskSigned? && a.wire.req.body.HeartbeatBody?
    requires var b := a.wire.req.body;
             && id in s'.db.devices && s'.db.devices[id].uuid == s.db.devices[id].uuid
             && 0 <= s'.db.devices[id].appliedPolicy == b.policyVersion <= p.policyVersion == |s.hist.settingsLog|
             && 0 <= s'.db.devices[id].appliedPassword == b.passwordVersion <= |Passwords(s.hist, id)|
    requires ServersOf(p.rustdesk) == s.db.settings.servers
    requires p.access.Some? ==>
               && p.access.value.passwordVersion == |Passwords(s.hist, id)| >= 1
               && p.access.value.password == Passwords(s.hist, id)[p.access.value.passwordVersion - 1]
    requires s'.hist.epochs == s.hist.epochs && s'.hist.epochOf == s.hist.epochOf
    requires s'.hist.settingsLog == s.hist.settingsLog
    requires a' == a.(wire := if a.phase == Idle then Silent else Answer(Beat(p), EpochOf(s'.hist, id)))
    ensures NodeInv(s', key, a')
  {
    assert DeviceTruth(s, a, id);
    BeatenRest(s.hist, key, a, a', p, EpochOf(s'.hist, id));
    PolicyTruthKept(s.hist, s'.hist, a');
    BeatenHeld(s, s', key, a, a', id);
    BeatenTruth(s, s', a, a', id, a.wire.req.body, p);
    NodeOfOneDevice(s, s', key, a, a', id);
  }

  lemma StillFound(db: Db, id: int, req: Request, commitAt: int)
    requires Constraints(db) && FindDevice(db, req.deviceId) == Some(id) && req.body.HeartbeatBody?
    ensures FindDevice(HeartbeatEffect(db, id, req, commitAt), req.deviceId) == Some(id)
  {
    FindDeviceUnique(HeartbeatEffect(db, id, req, commitAt), req.deviceId, id);
  }

  // What does not depend on a device.
  lemma BeatenRest(h: History, key: string, a: Node, a': Node, p: Policy, epoch: nat)
    requires Shape(key, a) && PolicyTruth(h, a) && a.wire.AskSigned? && a.wire.req.body.HeartbeatBody?
    requires PublicationOk(h, Publication(p.policyVersion, ServersOf(p.rustdesk)))
    requires a' == a.(wire := if a.phase == Idle then Silent else Answer(Beat(p), epoch))
    ensures Shape(key, a') && PolicyTruth(h, a')
  {
  }

  // What is granted is from the epoch of the device under the key.
  lemma BeatenHeld(s: Server, s': Server, key: string, a: Node, a': Node, id: int)
    requires LogsInv(s.hist) && id in s.hist.epochOf && HeldTruth(s, key, a) && Registered(s, key, id)
    requires s'.hist.epochs == s.hist.epochs && s'.hist.epochOf == s.hist.epochOf && s'.db.auth == s.db.auth
    requires a' == a.(wire := a'.wire) && (a'.wire.Answer? ==> a'.wire.epoch == EpochOf(s'.hist, id))
    ensures HeldTruth(s', key, a')
  {
  }

  lemma NodeOfOneDevice(s: Server, s': Server, key: string, a: Node, a': Node, id: int)
    requires Constraints(s.db) && NodeInv(s, key, a) && Registered(s, key, id) && s'.db.auth == s.db.auth
    requires Shape(key, a') && PolicyTruth(s'.hist, a') && HeldTruth(s', key, a') && DeviceTruth(s', a', id)
    ensures NodeInv(s', key, a')
  {
    forall i | Registered(s', key, i) ensures i == id {
      OneDevice(s, key, a, i, id);
    }
  }

  // The device and the node after a heartbeat, claim by claim.
  lemma BeatenTruth(s: Server, s': Server, a: Node, a': Node, id: int, b: Body, p: Policy)
    requires DeviceTruth(s, a, id) && PolicyTruth(s.hist, a)
    requires a.wire.AskSigned? && a.wire.req.body == b && b.HeartbeatBody?
    requires 0 <= b.policyVersion <= p.policyVersion == |s.hist.settingsLog|
    requires 0 <= b.passwordVersion <= |Passwords(s.hist, id)|
    requires p.access.Some? ==>
               && p.access.value.passwordVersion == |Passwords(s.hist, id)| >= 1
               && p.access.value.password == Passwords(s.hist, id)[p.access.value.passwordVersion - 1]
    requires id in s.hist.epochOf && s.hist.epochOf[id] < |s.hist.epochs|
    requires s'.hist.epochs == s.hist.epochs && s'.hist.epochOf == s.hist.epochOf
    requires s'.hist.settingsLog == s.hist.settingsLog
    requires id in s'.db.devices && s'.db.devices[id].uuid == s.db.devices[id].uuid
    requires s'.db.devices[id].appliedPolicy == b.policyVersion
    requires s'.db.devices[id].appliedPassword == b.passwordVersion
    requires a' == a.(wire := if a.phase == Idle then Silent else Answer(Beat(p), EpochOf(s'.hist, id)))
    ensures DeviceTruth(s', a', id)
  {
  }

  // A key is registered for at most one device.
  lemma OneDevice(s: Server, key: string, a: Node, i: int, j: int)
    requires Constraints(s.db) && NodeInv(s, key, a) && Registered(s, key, i) && Registered(s, key, j)
    ensures i == j
  {
  }

  lemma DeliverKept(master: string, s: Server, key: string, a: Node, admitted: bool, verifyAt: int, commitAt: int)
    requires Inv(master, s) && NodeInv(s, key, a) && (a.wire.AskBootstrap? || a.wire.AskSigned?)
    ensures var op := Call(a, admitted, verifyAt, commitAt);
            NodeInv(Step(master, s, op), key, Answered(master, s, a, op))
  {
    var op := Call(a, admitted, verifyAt, commitAt);
    if ReplyTo(master, s, op).Refused? {
      RefusedKept(s, key, a, Answered(master, s, a, op));
    } else if op.Bootstrap? {
      BootstrapAnswered(master, s, key, a, commitAt);
    } else if op.Enroll? {
      EnrollAnswered(master, s, key, a, op);
    } else {
      HeartbeatAnswered(master, s, key, a, op);
    }
  }

  // ---------- A node receiving an answer ----------

  // Applying servers, completely or partly, keeps what the tables show true:
  // if the current version is shown, the servers applied are the current ones.
  lemma ServersKeepInstalled(s: Server, a: Node, id: int, call: ServersCall)
    requires DeviceTruth(s, a, id) && PolicyTruth(s.hist, a) && Carries(a)
    ensures InstalledTruth(s, HostAfterServers(a.loop.host, ServersOf(a.wire.reply.policy.rustdesk), call), id)
  {
  }

  lemma AbandonedKept(s: Server, key: string, a: Node, loop: Loop)
    requires NodeInv(s, key, a)
    requires loop.acks == NO_ACKS && !loop.enrolled
    requires a.wire.AskSigned? || a.wire.AskBootstrap? ==> loop.host == a.loop.host
    requires forall id :: Registered(s, key, id) && id in s.db.devices ==> InstalledTruth(s, loop.host, id)
    ensures NodeInv(s, key, Abandoned(a, loop))
  {
  }

  lemma BootstrapReceived(s: Server, key: string, a: Node, accepts: SettingsCheck, calls: Calls,
                          time: int, nonce: string, info: Info)
    requires NodeInv(s, key, a) && a.phase == AwaitBootstrap && a.wire.Answer?
    ensures NodeInv(s, key, Received(key, a, accepts, calls, time, nonce, info))
  {
    forall id | Registered(s, key, id) ensures DeviceTruth(s, a, id) {
    }
    if !a.wire.reply.Published? || !Valid(a.wire.reply.policy, accepts) {
      AbandonedKept(s, key, a, Failed(a.loop));
    } else {
      var host := HostAfterServers(a.loop.host, ServersOf(a.wire.reply.policy.rustdesk), calls.servers);
      forall id | Registered(s, key, id) ensures id in s.db.devices && InstalledTruth(s, host, id) {
        ServersKeepInstalled(s, a, id, calls.servers);
      }
      if calls.servers.ServersFailed? {
        AbandonedKept(s, key, a, Failed(a.loop.(host := host)));
      } else {
        var a' := Received(key, a, accepts, calls, time, nonce, info);
        forall id | Registered(s, key, id) ensures DeviceTruth(s, a', id) {
          assert DeviceTruth(s, a, id);
        }
      }
    }
  }

  lemma EnrollReceived(s: Server, key: string, a: Node, accepts: SettingsCheck, calls: Calls,
                       time: int, nonce: string, info: Info)
    requires NodeInv(s, key, a) && a.phase == AwaitEnroll && a.wire.Answer?
    ensures NodeInv(s, key, Received(key, a, accepts, calls, time, nonce, info))
  {
  }

  // The host after a heartbeat's policy, however the calls end.
  lemma ApplyKeepsInstalled(s: Server, a: Node, id: int, accepts: SettingsCheck, calls: Calls)
    requires DeviceTruth(s, a, id) && PolicyTruth(s.hist, a) && a.wire.Answer? && a.wire.reply.Beat?
    ensures InstalledTruth(s, Applied(a.loop.acks, a.loop.host, a.wire.reply.policy, accepts, calls).1, id)
  {
  }

  lemma BeatTruth(s: Server, key: string, a: Node, a': Node, id: int, accepts: SettingsCheck, calls: Calls)
    requires DeviceTruth(s, a, id) && PolicyTruth(s.hist, a) && a.wire.Answer? && a.wire.reply.Beat?
    requires Applied(a.loop.acks, a.loop.host, a.wire.reply.policy, accepts, calls).2
    requires var (acks, host, _) := Applied(a.loop.acks, a.loop.host, a.wire.reply.policy, accepts, calls);
             && a'.uuid == a.uuid && a'.loop.acks == acks && a'.loop.host == host && a'.wire == Silent
             && a'.epoch == if acks.passwordVersion != a.loop.acks.passwordVersion then a.wire.epoch else a.epoch
    ensures DeviceTruth(s, a', id)
  {
  }

  lemma HeartbeatReceived(s: Server, key: string, a: Node, accepts: SettingsCheck, calls: Calls,
                          time: int, nonce: string, info: Info)
    requires NodeInv(s, key, a) && a.phase == AwaitHeartbeat && a.wire.Answer?
    ensures NodeInv(s, key, Received(key, a, accepts, calls, time, nonce, info))
  {
    forall id | Registered(s, key, id) ensures DeviceTruth(s, a, id) {
    }
    if !a.wire.reply.Beat? {
      AbandonedKept(s, key, a, Failed(a.loop));
    } else {
      var (acks, host, ok) := Applied(a.loop.acks, a.loop.host, a.wire.reply.policy, accepts, calls);
      forall id | Registered(s, key, id) ensures id in s.db.devices && InstalledTruth(s, host, id) {
        ApplyKeepsInstalled(s, a, id, accepts, calls);
      }
      if ok && calls.saved {
        AckedMeansInstalled(a.loop.acks, a.loop.host, a.wire.reply.policy, accepts, calls);
        var a' := Received(key, a, accepts, calls, time, nonce, info);
        forall id | Registered(s, key, id) ensures DeviceTruth(s, a', id) {
          BeatTruth(s, key, a, a', id, accepts, calls);
        }
      } else {
        FailedReceive(s, key, a, host);
      }
    }
  }

  lemma FailedReceive(s: Server, key: string, a: Node, host: Host)
    requires NodeInv(s, key, a) && a.wire.Answer?
    requires forall id :: Registered(s, key, id) ==> id in s.db.devices && InstalledTruth(s, host, id)
    ensures NodeInv(s, key, Abandoned(a, Failed(a.loop.(host := host))))
    ensures forall epoch :: NodeInv(s, key, Abandoned(a, Failed(a.loop.(host := host))).(epoch := epoch))
  {
  }

  // Whatever others do on the machine, a managed host keeps its servers, and a
  // locked one its password.
  lemma LocalKept(s: Server, key: string, a: Node, change: Host)
    requires NodeInv(s, key, a)
    ensures NodeInv(s, key, a.(loop := a.loop.(host := HostAfterLocal(a.loop.host, change))))
  {
  }

  // ---------- Every event ----------

  // What an event of its own makes of a node.
  ghost predicate NodeEvent(key: string, a: Node, a': Node, accepts: SettingsCheck, e: Event) {
    match e
    case Send(_, time, nonce, info) => a.phase == Idle && a' == Asked(key, a, time, nonce, info)
    case Lose(_) => a' == a.(wire := Silent)
    case Receive(_, calls, time, nonce, info) =>
      a.wire.Answer? && a' == Received(key, a, accepts, calls, time, nonce, info)
    case GiveUp(_) => a' == Abandoned(a, Failed(a.loop))
    case Restart(_) => a' == Abandoned(a, Loop(NO_ACKS, false, 0, a.loop.host))
    case Local(_, change) => a' == a.(loop := a.loop.(host := HostAfterLocal(a.loop.host, change)))
    case _ => false
  }

  lemma NodeEventKept(s: Server, key: string, a: Node, a': Node, accepts: SettingsCheck, e: Event)
    requires NodeInv(s, key, a) && !e.Outside? && !e.Deliver? && e.key == key
    requires NodeEvent(key, a, a', accepts, e)
    ensures NodeInv(s, key, a')
  {
    forall id | Registered(s, key, id) ensures DeviceTruth(s, a, id) {
    }
    match e
    case Send(_, _, _, _) =>
      forall id | Registered(s, key, id) ensures DeviceTruth(s, a', id) {
        assert DeviceTruth(s, a, id);
      }
    case Lose(_) =>
      forall id | Registered(s, key, id) ensures DeviceTruth(s, a', id) {
        assert DeviceTruth(s, a, id);
      }
    case GiveUp(_) => AbandonedKept(s, key, a, Failed(a.loop));
    case Restart(_) => AbandonedKept(s, key, a, Loop(NO_ACKS, false, 0, a.loop.host));
    case Local(_, change) => LocalKept(s, key, a, change);
    case Receive(_, calls, time, nonce, info) =>
      match a.phase {
        case AwaitBootstrap => BootstrapReceived(s, key, a, accepts, calls, time, nonce, info);
        case AwaitEnroll => EnrollReceived(s, key, a, accepts, calls, time, nonce, info);
        case AwaitHeartbeat => HeartbeatReceived(s, key, a, accepts, calls, time, nonce, info);
        case Idle =>
      }
  }

  lemma ServerEventKept(master: string, sys: System, op: Op, touched: set<string>)
    requires SystemInv(master, sys)
    requires forall key :: key in sys.nodes && key !in touched ==> NotSignedBy(op, key)
    ensures Inv(master, Step(master, sys.server, op))
    ensures forall key :: key in sys.nodes && key !in touched ==>
              NodeInv(Step(master, sys.server, op), key, sys.nodes[key])
  {
    KeptByStep(master, sys.server, op);
    forall key | key in sys.nodes && key !in touched
      ensures NodeInv(Step(master, sys.server, op), key, sys.nodes[key])
    {
      OthersKept(master, sys.server, op, key, sys.nodes[key]);
    }
  }

  // ---------- Requests sent before ----------

  lemma PasswordNewsKept(s: Server, s': Server, id: int, host: Host, version: int)
    requires PasswordNews(s.hist, id, host, version) && Evolves(s, s') && SameEpoch(s, s', id)
    requires s.hist.epochOf[id] < |s.hist.epochs|
    ensures PasswordNews(s'.hist, id, host, version)
  {
    PasswordsGrow(s, s', id);
  }

  // What was sent stays true whatever the control plane goes on to do.
  lemma SentKept(s: Server, s': Server, key: string, a: Node, x: Sent)
    requires SentTruth(s, key, a, x) && Evolves(s, s') && LogsInv(s.hist)
    ensures SentTruth(s', key, a, x)
  {
    var b := x.req.body;
    if b.HeartbeatBody? && b.passwordVersion > 0 {
      EpochOwnedKept(s, s', key, x.epoch);
      forall id | id in s'.hist.epochOf && s'.hist.epochOf[id] == x.epoch
        ensures PasswordNews(s'.hist, id, a.loop.host, b.passwordVersion)
        ensures Grants(a) ==> b.passwordVersion <= a.wire.reply.policy.access.value.passwordVersion
      {
        assert SameEpoch(s, s', id);
        PasswordNewsKept(s, s', id, a.loop.host, b.passwordVersion);
      }
    }
  }

  // Nothing sent before is ahead of an answer.
  lemma SentAnswered(s: Server, key: string, a: Node, a': Node, x: Sent)
    requires SentTruth(s, key, a, x) && a' == a.(wire := a'.wire)
    requires Carries(a') ==> a'.wire.reply.policy.policyVersion == |s.hist.settingsLog|
    requires Grants(a') ==> exists id :: Registered(s, key, id) && AnsweredLast(s, key, a', id)
    ensures SentTruth(s, key, a', x)
  {
    var b := x.req.body;
    if b.HeartbeatBody? && b.passwordVersion > 0 && Grants(a') {
      var id :| Registered(s, key, id) && AnsweredLast(s, key, a', id);
      forall i | i in s.hist.epochOf && s.hist.epochOf[i] == x.epoch
        ensures b.passwordVersion <= a'.wire.reply.policy.access.value.passwordVersion
      {
        assert Registered(s, key, i);
        assert PasswordNews(s.hist, i, a.loop.host, b.passwordVersion);
      }
    }
  }

  // The only device under the key is told its last password.
  ghost predicate AnsweredLast(s: Server, key: string, a: Node, id: int)
    requires Grants(a)
  {
    && (forall i :: Registered(s, key, i) ==> i == id)
    && a.wire.reply.policy.access.value.passwordVersion == |Passwords(s.hist, id)|
  }

  lemma DeliverSent(master: string, s: Server, key: string, a: Node, admitted: bool, verifyAt: int, commitAt: int,
                    x: Sent)
    requires Inv(master, s) && NodeInv(s, key, a) && (a.wire.AskBootstrap? || a.wire.AskSigned?)
    requires SentTruth(s, key, a, x)
    ensures var op := Call(a, admitted, verifyAt, commitAt);
            SentTruth(Step(master, s, op), key, Answered(master, s, a, op), x)
  {
    var op := Call(a, admitted, verifyAt, commitAt);
    var s', a' := Step(master, s, op), Answered(master, s, a, op);
    FrameOf(master, s);
    StepEvolves(master, s, op);
    SentKept(s, s', key, a, x);
    KeptByStep(master, s, op);
    if Carries(a') {
      AnswerIsCurrent(master, s, key, a, op);
    }
    SentAnswered(s', key, a, a', x);
  }

  lemma AnswerIsCurrent(master: string, s: Server, key: string, a: Node, op: Op)
    requires Inv(master, s) && NodeInv(s, key, a) && (a.wire.AskBootstrap? || a.wire.AskSigned?)
    requires op.Bootstrap? || op.Enroll? || op.Heartbeat?
    requires op.Heartbeat? ==> a.wire.AskSigned? && op.req == a.wire.req
    requires Carries(Answered(master, s, a, op))
    ensures var s', a' := Step(master, s, op), Answered(master, s, a, op);
            && a'.wire.reply.policy.policyVersion == |s'.hist.settingsLog|
            && (Grants(a') ==> exists id :: Registered(s', key, id) && AnsweredLast(s', key, a', id))
  {
    if op.Heartbeat? {
      HeartbeatStep(master, s, op);
      FrameOf(master, s);
      var id := FindDevice(s.db, op.req.deviceId).value;
      var p := ReplyTo(master, s, op).policy;
      RecordBeatKeeps(s.hist, id, op.req, p);
      assert DeviceTables(master, s.db, id) && DeviceHistory(master, s, id);
      if p.access.Some? {
        GrantedIsLast(master, s, id, p.access.value);
        OnlyDevice(s, Step(master, s, op), key, a, id);
      }
    }
  }

  lemma OnlyDevice(s: Server, s': Server, key: string, a: Node, id: int)
    requires Constraints(s.db) && NodeInv(s, key, a) && Registered(s, key, id) && s'.db.auth == s.db.auth
    ensures Registered(s', key, id) && forall i :: Registered(s', key, i) ==> i == id
  {
    forall i | Registered(s', key, i) ensures i == id {
      OneDevice(s, key, a, i, id);
    }
  }
  // What a policy on its way brings is not older than what was sent before.
  lemma SentServers(s: Server, key: string, a: Node, x: Sent, call: ServersCall)
    requires SentTruth(s, key, a, x) && PolicyTruth(s.hist, a) && Carries(a) && x.req.body.HeartbeatBody?
    ensures var host := HostAfterServers(a.loop.host, ServersOf(a.wire.reply.policy.rustdesk), call);
            PolicyNews(s.hist, host, x.req.body.policyVersion)
  {
  }

  lemma SentPassword(s: Server, key: string, a: Node, x: Sent, id: int, h: Host, accepts: SettingsCheck, calls: Calls)
    requires SentTruth(s, key, a, x) && x.req.body.HeartbeatBody? && x.req.body.passwordVersion > 0
    requires id in s.hist.epochOf && s.hist.epochOf[id] == x.epoch && DeviceTruth(s, a, id)
    requires a.wire.Answer? && a.wire.reply.Beat?
    requires h == Applied(a.loop.acks, a.loop.host, a.wire.reply.policy, accepts, calls).1
    ensures PasswordNews(s.hist, id, h, x.req.body.passwordVersion)
  {
  }

  lemma SentBeat(s: Server, key: string, a: Node, x: Sent, h: Host, accepts: SettingsCheck, calls: Calls)
    requires NodeInv(s, key, a) && SentTruth(s, key, a, x) && a.wire.Answer? && a.wire.reply.Beat?
    requires h == Applied(a.loop.acks, a.loop.host, a.wire.reply.policy, accepts, calls).1
    ensures SentTruth(s, key, a.(wire := Silent, loop := a.loop.(host := h)), x)
  {
    var b := x.req.body;
    if b.HeartbeatBody? {
      SentServers(s, key, a, x, calls.servers);
      if b.passwordVersion > 0 {
        forall id | id in s.hist.epochOf && s.hist.epochOf[id] == x.epoch
          ensures PasswordNews(s.hist, id, h, b.passwordVersion)
        {
          assert Registered(s, key, id) && DeviceTruth(s, a, id);
          SentPassword(s, key, a, x, id, h, accepts, calls);
        }
      }
    }
  }

  // A node's own events leave true what it sent before.
  lemma SentReceived(s: Server, key: string, a: Node, x: Sent, accepts: SettingsCheck, calls: Calls,
                     time: int, nonce: string, info: Info)
    requires NodeInv(s, key, a) && SentTruth(s, key, a, x) && a.wire.Answer?
    ensures SentTruth(s, key, Received(key, a, accepts, calls, time, nonce, info), x)
  {
    if a.phase == AwaitBootstrap && a.wire.reply.Published? && x.req.body.HeartbeatBody? {
      SentServers(s, key, a, x, calls.servers);
    } else if a.phase == AwaitHeartbeat && a.wire.reply.Beat? {
      SentBeat(s, key, a, x, Applied(a.loop.acks, a.loop.host, a.wire.reply.policy, accepts, calls).1, accepts, calls);
    }
  }

  lemma NodeEventSent(s: Server, key: string, a: Node, a': Node, accepts: SettingsCheck, e: Event, x: Sent)
    requires NodeInv(s, key, a) && SentTruth(s, key, a, x) && !e.Outside? && !e.Deliver? && e.key == key
    requires NodeEvent(key, a, a', accepts, e)
    ensures SentTruth(s, key, a', x)
  {
    if e.Receive? {
      SentReceived(s, key, a, x, accepts, e.calls, e.time, e.nonce, e.info);
    }
  }

  // And what it sends is true.
  lemma OutgoingTrue(s: Server, key: string, a: Node)
    requires NodeInv(s, key, a) && a.wire.AskSigned?
    requires a.wire.req.body.HeartbeatBody? ==> a.wire.req.body.passwordVersion == a.loop.acks.passwordVersion
    ensures SentTruth(s, key, a, Sent(a.wire.req, a.epoch))
  {
    var b := a.wire.req.body;
    if b.HeartbeatBody? && b.passwordVersion > 0 {
      forall id | id in s.hist.epochOf && s.hist.epochOf[id] == a.epoch
        ensures PasswordNews(s.hist, id, a.loop.host, b.passwordVersion)
      {
        assert Registered(s, key, id) && DeviceTruth(s, a, id);
      }
    }
  }

  // ---------- Requests sent again ----------

  // The device after a heartbeat sent again, claim by claim.
  lemma ResentTruth(s: Server, s': Server, key: string, a: Node, id: int, x: Sent)
    requires DeviceTruth(s, a, id) && SentTruth(s, key, a, x) && x.req.body.HeartbeatBody?
    requires id in s.hist.epochOf && (x.req.body.passwordVersion > 0 ==> s.hist.epochOf[id] == x.epoch)
    requires s'.hist.epochs == s.hist.epochs && s'.hist.epochOf == s.hist.epochOf
    requires s'.hist.settingsLog == s.hist.settingsLog
    requires id in s'.db.devices && s'.db.devices[id].uuid == s.db.devices[id].uuid
    requires s'.db.devices[id].appliedPolicy == x.req.body.policyVersion
    requires s'.db.devices[id].appliedPassword == x.req.body.passwordVersion
    ensures DeviceTruth(s', a, id)
  {
  }

  lemma ResentHeartbeat(master: string, s: Server, key: string, a: Node, op: Op, x: Sent)
    requires Inv(master, s) && NodeInv(s, key, a) && SentTruth(s, key, a, x)
    requires op.Heartbeat? && op.req == x.req && x.req.body.HeartbeatBody?
    requires HeartbeatVerdict(master, s.db, op.req, op.verifyAt, op.commitAt).None?
    requires x.req.body.passwordVersion == 0 || Current(s.hist, x.epoch)
    ensures NodeInv(Step(master, s, op), key, a)
  {
    HeartbeatStep(master, s, op);
    FrameOf(master, s);
    var id, s' := FindDevice(s.db, op.req.deviceId).value, Step(master, s, op);
    RecordBeatKeeps(s.hist, id, op.req, ReplyTo(master, s, op).policy);
    OnlyDevice(s, s', key, a, id);
    if x.req.body.passwordVersion > 0 {
      var i :| i in s.hist.epochOf && s.hist.epochOf[i] == x.epoch;
      assert Registered(s, key, i);
    }
    assert DeviceTruth(s, a, id);
    ResentTruth(s, s', key, a, id, x);
    PolicyTruthKept(s.hist, s'.hist, a);
    StepEvolves(master, s, op);
    HeldTruthKept(s, s', key, a);
  }

  // Enrolling a device again that is registered already.
  lemma KnownStable(s: Server, id: int, req: Request, commitAt: int, key: string)
    requires FrameInv(s) && id in s.db.auth && req.body.EnrollBody? && req.body.publicKey.Some?
    ensures Stable(s, Server(EnrollEffect(s.db, id, req, commitAt), EnrolledHistory(s, id, req)), key)
  {
  }

  // A device newly registered for a node that holds no password.
  lemma ResentNew(s: Server, s': Server, key: string, a: Node, i: int, id: int, op: Op)
    requires FrameInv(s) && NodeInv(s, key, a) && Registered(s', key, i) && HoldsNothing(a)
    requires op.Enroll? && op.req.body.EnrollBody? && op.req.body.publicKey == Some(key) && id !in s.db.auth
    requires s' == Server(EnrollEffect(s.db, id, op.req, op.commitAt), EnrolledHistory(s, id, op.req))
    requires FreshDevice(s', id, a.uuid) && (i != id ==> i in s.db.devices)
    ensures DeviceTruth(s', a, i)
  {
    if i != id {
      assert Registered(s, key, i) && DeviceTruth(s, a, i);
    }
  }

  lemma ResentEnrollment(master: string, s: Server, key: string, a: Node, op: Op, x: Sent)
    requires Inv(master, s) && NodeInv(s, key, a) && SentTruth(s, key, a, x)
    requires op.Enroll? && op.req == x.req && x.req.body.EnrollBody?
    requires EnrollVerdict(s.db, op.admitted, op.req, op.verifyAt, op.commitAt).None?
    requires EnrollTarget(s.db, op.req.body.uuid) in s.db.auth || HoldsNothing(a)
    ensures NodeInv(Step(master, s, op), key, a)
  {
    EnrollStep(master, s, op);
    FrameOf(master, s);
    KeptByStep(master, s, op);
    StepEvolves(master, s, op);
    var id, s' := EnrollTarget(s.db, op.req.body.uuid), Step(master, s, op);
    if id in s.db.auth {
      KnownStable(s, id, op.req, op.commitAt, key);
      NodeKept(master, s, s', key, a);
    } else {
      NewlyRegistered(master, s, s', id, op);
      PolicyTruthKept(s.hist, s'.hist, a);
      HeldTruthKept(s, s', key, a);
      forall i | Registered(s', key, i) ensures DeviceTruth(s', a, i) {
        ResentNew(s, s', key, a, i, id, op);
      }
    }
  }

  lemma ResentKept(master: string, sys: System, op: Op)
    requires SystemInv(master, sys) && Resent(sys, op) && InOwnEpoch(sys, op)
    requires Step(master, sys.server, op) != sys.server
    ensures op.req.signature.Some? && op.req.signature.value.signer in sys.nodes
    ensures var key := op.req.signature.value.signer;
            NodeInv(Step(master, sys.server, op), key, sys.nodes[key])
  {
    hide FormatInt, NodeInv, SentTruth;
    var key := op.req.signature.value.signer;
    if op.Enroll? {
      var x :| x in sys.sent && x.req == op.req;
      EnrollStep(master, sys.server, op);
      ResentEnrollment(master, sys.server, key, sys.nodes[key], op, x);
    } else {
      HeartbeatStep(master, sys.server, op);
      var x :| x in sys.sent && x.req == op.req
               && (op.req.body.passwordVersion == 0 || Current(sys.server.hist, x.epoch));
      ResentHeartbeat(master, sys.server, key, sys.nodes[key], op, x);
    }
  }

  // ---------- Every event ----------

  lemma AllSentKept(sys: System, s': Server)
    requires SentInv(sys) && Evolves(sys.server, s') && LogsInv(sys.server.hist)
    ensures SentInv(sys.(server := s'))
  {
    forall x | x in sys.sent
      ensures x.req.signature.Some? && x.req.signature.value.signer in sys.nodes
      ensures SentTruth(s', x.req.signature.value.signer, sys.nodes[x.req.signature.value.signer], x)
    {
      var key := x.req.signature.value.signer;
      SentKept(sys.server, s', key, sys.nodes[key], x);
    }
  }

  lemma OutsideKept(master: string, sys: System, op: Op)
    requires SystemInv(master, sys)
    requires Unsigned(sys, op) || (Resent(sys, op) && InOwnEpoch(sys, op) && Step(master, sys.server, op) != sys.server)
    ensures SystemInv(master, sys.(server := Step(master, sys.server, op)))
  {
    var s, s' := sys.server, Step(master, sys.server, op);
    if Unsigned(sys, op) {
      ServerEventKept(master, sys, op, {});
    } else {
      ResentKept(master, sys, op);
      ServerEventKept(master, sys, op, {op.req.signature.value.signer});
    }
    FrameOf(master, s);
    StepEvolves(master, s, op);
    AllSentKept(sys, s');
  }

  lemma DeliveryKept(master: string, sys: System, key: string, admitted: bool, verifyAt: int, commitAt: int)
    requires SystemInv(master, sys) && key in sys.nodes
    requires sys.nodes[key].wire.AskBootstrap? || sys.nodes[key].wire.AskSigned?
    ensures var op := Call(sys.nodes[key], admitted, verifyAt, commitAt);
            SystemInv(master, sys.(server := Step(master, sys.server, op),
                                   nodes := sys.nodes[key := Answered(master, sys.server, sys.nodes[key], op)]))
  {
    var s, a := sys.server, sys.nodes[key];
    assert NodeInv(s, key, a);
    ServerEventKept(master, sys, Call(a, admitted, verifyAt, commitAt), {key});
    DeliverKept(master, s, key, a, admitted, verifyAt, commitAt);
    AllSentDelivered(master, sys, key, admitted, verifyAt, commitAt);
  }

  lemma AllSentDelivered(master: string, sys: System, key: string, admitted: bool, verifyAt: int, commitAt: int)
    requires Inv(master, sys.server) && SentInv(sys) && key in sys.nodes && NodeInv(sys.server, key, sys.nodes[key])
    requires sys.nodes[key].wire.AskBootstrap? || sys.nodes[key].wire.AskSigned?
    ensures var op := Call(sys.nodes[key], admitted, verifyAt, commitAt);
            SentInv(sys.(server := Step(master, sys.server, op),
                         nodes := sys.nodes[key := Answered(master, sys.server, sys.nodes[key], op)]))
  {
    var s, a := sys.server, sys.nodes[key];
    var op := Call(a, admitted, verifyAt, commitAt);
    FrameOf(master, s);
    StepEvolves(master, s, op);
    forall x | x in sys.sent
      ensures x.req.signature.Some? && x.req.signature.value.signer in sys.nodes
      ensures var k := x.req.signature.value.signer;
              SentTruth(Step(master, s, op), k, if k == key then Answered(master, s, a, op) else sys.nodes[k], x)
    {
      var k := x.req.signature.value.signer;
      if k == key {
        DeliverSent(master, s, key, a, admitted, verifyAt, commitAt, x);
      } else {
        SentKept(s, Step(master, s, op), k, sys.nodes[k], x);
      }
    }
  }

  lemma OwnEventKept(master: string, sys: System, key: string, a': Node, accepts: SettingsCheck, e: Event)
    requires SystemInv(master, sys) && key in sys.nodes && !e.Outside? && !e.Deliver? && e.key == key
    requires NodeEvent(key, sys.nodes[key], a', accepts, e)
    ensures SystemInv(master, sys.(nodes := sys.nodes[key := a']))
    ensures e.Send? || e.Receive? ==> SystemInv(master, Sends(sys, key, a'))
  {
    var s, a := sys.server, sys.nodes[key];
    assert NodeInv(s, key, a);
    NodeEventKept(s, key, a, a', accepts, e);
    forall x | x in sys.sent
      ensures x.req.signature.Some? && x.req.signature.value.signer in sys.nodes
      ensures x.req.signature.value.signer == key ==> SentTruth(s, key, a', x)
    {
      if x.req.signature.value.signer == key {
        NodeEventSent(s, key, a, a', accepts, e, x);
      }
    }
    if (e.Send? || e.Receive?) && a'.wire.AskSigned? {
      OutgoingTrue(s, key, a');
    }
  }

  lemma EventKept(master: string, accepts: SettingsCheck, sys: System, e: Event)
    requires SystemInv(master, sys) && Harmless(master, sys, e)
    ensures SystemInv(master, Do(master, accepts, sys, e))
  {
    if e.Outside? {
      if Do(master, accepts, sys, e) != sys {
        OutsideKept(master, sys, e.op);
      }
    } else if e.key in sys.nodes {
      var a := sys.nodes[e.key];
      if e.Deliver? {
        if a.wire.AskBootstrap? || a.wire.AskSigned? {
          DeliveryKept(master, sys, e.key, e.admitted, e.verifyAt, e.commitAt);
        }
      } else if (e.Send? ==> a.phase == Idle) && (e.Receive? ==> a.wire.Answer?) {
        OwnEventKept(master, sys, e.key, Do(master, accepts, sys, e).nodes[e.key], accepts, e);
      }
    }
  }

  // In every run from an initial state the joint invariant holds.
  lemma {:induction false} ReachableSystem(master: string, accepts: SettingsCheck, first: System, events: seq<Event>)
    requires Initial(first) && WithinEpochs(master, accepts, first, events)
    ensures SystemInv(master, DoAll(master, accepts, first, events))
    decreases |events|
  {
    if events == [] {
      forall key | key in first.nodes ensures NodeInv(FIRST, key, first.nodes[key]) {
        assert FreshNode(first.nodes[key]);
      }
    } else {
      var before := events[..|events| - 1];
      ReachableSystem(master, accepts, first, before);
      EventKept(master, accepts, DoAll(master, accepts, first, before), events[|events| - 1]);
    }
  }

  // ---------- Main results ----------

  // Truthful synchronization: in every run, a device shown as synchronized has
  // exactly the current credential's password installed, and a device that
  // reports the current policy version has the current servers installed,
  // across rotations, rejections, resets, deletions, restarts, lost messages
  // and calls that fail partway.
  lemma TruthfulSync(master: string, accepts: SettingsCheck, first: System, events: seq<Event>,
                     sys: System, key: string, id: int)
    requires Initial(first) && WithinEpochs(master, accepts, first, events)
    requires sys == DoAll(master, accepts, first, events)
    requires key in sys.nodes && Registered(sys.server, key, id)
    ensures id in sys.server.db.devices
    ensures PasswordSynced(sys.server.db, id) ==>
              && id in sys.server.db.creds
              && Opened(master, sys.server.db, id) == Some(sys.nodes[key].loop.host.password)
              && sys.nodes[key].loop.host.managed && sys.nodes[key].loop.host.locked
    ensures sys.server.db.devices[id].appliedPolicy == sys.server.db.settings.version ==>
              sys.nodes[key].loop.host.servers == sys.server.db.settings.servers && sys.nodes[key].loop.host.managed
  {
    ReachableSystem(master, accepts, first, events);
    assert NodeInv(sys.server, key, sys.nodes[key]);
    assert DeviceTruth(sys.server, sys.nodes[key], id);
    assert DeviceTables(master, sys.server.db, id) && DeviceHistory(master, sys.server, id);
  }

  // A password version held by an agent was obtained in the current credential
  // epoch of whatever device is registered under its key, and is not ahead of
  // that device's credential.
  lemma HeldVersionIsCurrentEpoch(master: string, accepts: SettingsCheck, first: System, events: seq<Event>,
                                  sys: System, key: string)
    requires Initial(first) && WithinEpochs(master, accepts, first, events)
    requires sys == DoAll(master, accepts, first, events)
    requires key in sys.nodes
    requires sys.nodes[key].loop.acks.passwordVersion > 0
    ensures forall id :: Registered(sys.server, key, id) ==>
              && id in sys.server.hist.epochOf
              && sys.nodes[key].epoch == sys.server.hist.epochOf[id]
              && sys.nodes[key].loop.acks.passwordVersion <= CredVersion(sys.server.db, id)
  {
    ReachableSystem(master, accepts, first, events);
    assert NodeInv(sys.server, key, sys.nodes[key]);
    forall id | Registered(sys.server, key, id)
      ensures && id in sys.server.hist.epochOf
              && sys.nodes[key].epoch == sys.server.hist.epochOf[id]
              && sys.nodes[key].loop.acks.passwordVersion <= CredVersion(sys.server.db, id)
    {
      assert DeviceTruth(sys.server, sys.nodes[key], id);
      assert DeviceTables(master, sys.server.db, id) && DeviceHistory(master, sys.server, id);
    }
  }

  // Hence no agent is ever told that it reports a version ahead of the server's.
  lemma NeverAhead(master: string, accepts: SettingsCheck, first: System, events: seq<Event>, sys: System,
                   key: string, admitted: bool, verifyAt: int, commitAt: int)
    requires Initial(first) && WithinEpochs(master, accepts, first, events)
    requires sys == DoAll(master, accepts, first, events)
    requires key in sys.nodes
    requires sys.nodes[key].wire.AskSigned?
    ensures ReplyTo(master, sys.server, Call(sys.nodes[key], admitted, verifyAt, commitAt)) != Refused(VersionAhead)
  {
    ReachableSystem(master, accepts, first, events);
    var s, a := sys.server, sys.nodes[key];
    var op := Call(a, admitted, verifyAt, commitAt);
    assert NodeInv(s, key, a);
    if ReplyTo(master, s, op) == Refused(VersionAhead) {
      AheadMeans(master, s, op);
      var id := FindDevice(s.db, op.req.deviceId).value;
      assert DeviceTables(master, s.db, id) && DeviceHistory(master, s, id);
      ReportsWithinTables(master, s, key, a, id);
    }
  }

  lemma AheadMeans(master: string, s: Server, op: Op)
    requires ReplyTo(master, s, op) == Refused(VersionAhead)
    ensures op.Heartbeat? && op.req.body.HeartbeatBody? && FindDevice(s.db, op.req.deviceId).Some?
    ensures var id := FindDevice(s.db, op.req.deviceId).value;
            && id in s.db.auth && op.req.signature.Some? && op.req.signature.value.signer == s.db.auth[id]
            && (op.req.body.policyVersion > s.db.settings.version
                || op.req.body.passwordVersion > CredVersion(s.db, id))
  {
  }

  lemma ReportsWithinTables(master: string, s: Server, key: string, a: Node, id: int)
    requires NodeInv(s, key, a) && Registered(s, key, id) && DeviceInv(master, s, id)
    requires |s.hist.settingsLog| == s.db.settings.version
    requires a.wire.AskSigned? && a.wire.req.body.HeartbeatBody?
    ensures a.wire.req.body.policyVersion <= s.db.settings.version
    ensures a.wire.req.body.passwordVersion <= CredVersion(s.db, id)
  {
  }
}
