// Requests sent again across a reset.  Whether what the tables show stays true
// depends on how long after an agent's requests its device is reset and
// approved anew; the bound is exact.
module Resets {
  import opened Text
  import opened Schema
  import opened Messages
  import opened Handlers
  import opened Runs
  import opened ReplayGuard
  import opened Management
  import opened Truth

  // ---------- Clocks and care ----------

  // When a call commits, and when it checked what it was sent.
  function When(op: Op): int {
    match op
    case Enroll(_, _, _, commitAt) => commitAt
    case Heartbeat(_, _, commitAt) => commitAt
    case _ => op.now
  }

  function Checked(op: Op): int { if FromAgent(op) then op.verifyAt else op.now }

  // Calls commit in the order of the clock, and no call checked what it was
  // sent more than `slack` seconds before.
  ghost predicate Clocked(ops: seq<Op>, slack: nat) {
    && (forall i :: 0 <= i < |ops| ==> Checked(ops[i]) <= When(ops[i]) <= Checked(ops[i]) + slack)
    && (forall i, j :: 0 <= i < j < |ops| ==> When(ops[i]) <= Checked(ops[j]) + slack)
  }

  // How long after an agent's last enrollment its device is reset or deleted,
  // and how long after its last report of a password from before it is approved.
  datatype Delays = Delays(reset: nat, approval: nat)

  // Longer than any signature is believed, clocks included.
  predicate LongEnough(delays: Delays, slack: nat) {
    delays.reset > 300 + slack && delays.approval > 300 + slack
  }

  ghost predicate Patient(sys: System, e: Event, delays: Delays) {
    e.Outside? ==>
      match e.op
      case Reset(id, now) => EnrollmentsAreOld(sys, id, now, delays.reset)
      case Delete(id, now) => EnrollmentsAreOld(sys, id, now, delays.reset)
      case Approve(id, _, _, now) => ClaimsAreOld(sys, id, now, delays.approval)
      case _ => true
  }

  ghost predicate EnrollmentsAreOld(sys: System, id: int, now: int, delay: nat) {
    id in sys.server.db.devices ==>
      forall x :: x in sys.sent && x.req.body.EnrollBody? && x.req.body.uuid == sys.server.db.devices[id].uuid ==>
        Stamp(x.req) + delay <= now
  }

  ghost predicate ClaimsAreOld(sys: System, id: int, now: int, delay: nat) {
    id in sys.server.db.devices ==>
      forall x :: x in sys.sent && Claims(x) && x.req.deviceId == sys.server.db.devices[id].uuid
                  && x.epoch != EpochOf(sys.server.hist, id) ==>
        Stamp(x.req) + delay <= now
  }

  predicate Claims(x: Sent) { x.req.body.HeartbeatBody? && x.req.body.passwordVersion > 0 }

  ghost predicate PatientRun(master: string, accepts: SettingsCheck, sys: System, events: seq<Event>, delays: Delays)
    decreases |events|
  {
    events == [] ||
    (&& PatientRun(master, accepts, sys, events[..|events| - 1], delays)
     && Patient(DoAll(master, accepts, sys, events[..|events| - 1]), events[|events| - 1], delays))
  }

  // ---------- Requests too old to be believed ----------

  // Some call has committed so late that the stamp is out of every later window.
  ghost predicate Outdated(ops: seq<Op>, slack: nat, stamp: int) {
    exists i :: 0 <= i < |ops| && stamp + 300 + slack < When(ops[i])
  }

  lemma OutdatedForGood(ops: seq<Op>, more: seq<Op>, slack: nat, stamp: int)
    requires Outdated(ops, slack, stamp)
    ensures Outdated(ops + more, slack, stamp)
  {
    var i :| 0 <= i < |ops| && stamp + 300 + slack < When(ops[i]);
    assert (ops + more)[i] == ops[i];
  }

  lemma OutdatedNow(ops: seq<Op>, op: Op, slack: nat, delay: nat, stamp: int)
    requires stamp + delay <= When(op) && delay > 300 + slack
    ensures Outdated(ops + [op], slack, stamp)
  {
    assert (ops + [op])[|ops|] == op;
  }

  lemma OutdatedIsRefused(ops: seq<Op>, op: Op, slack: nat)
    requires Clocked(ops + [op], slack) && FromAgent(op) && Outdated(ops, slack, Stamp(op.req))
    ensures !InWindow(op.req.stamp, op.verifyAt)
  {
    var i :| 0 <= i < |ops| && Stamp(op.req) + 300 + slack < When(ops[i]);
    var all := ops + [op];
    assert all[i] == ops[i] && all[|ops|] == op;
  }

  // ---------- What patience keeps ----------

  // A node that holds, reports or is being told a password of an epoch that no
  // device is in.
  ghost predicate Stale(h: History, a: Node) {
    || (a.loop.acks.passwordVersion > 0 && !Current(h, a.epoch))
    || (a.wire.AskSigned? && a.wire.req.body.HeartbeatBody? && a.wire.req.body.passwordVersion > 0
        && !Current(h, a.epoch))
    || (Grants(a) && !Current(h, a.wire.epoch))
  }

  ghost predicate Remembered(sys: System) {
    forall key :: key in sys.nodes && sys.nodes[key].wire.AskSigned? ==>
      Sent(sys.nodes[key].wire.req, sys.nodes[key].epoch) in sys.sent
  }

  // Enrollments of stale nodes are outdated.
  ghost predicate StaleInv(sys: System, ops: seq<Op>, slack: nat) {
    forall key, x :: key in sys.nodes && Stale(sys.server.hist, sys.nodes[key]) && x in sys.sent
                     && x.req.body.EnrollBody? && x.req.body.publicKey == Some(key) ==>
      Outdated(ops, slack, Stamp(x.req))
  }

  // Claims from before are outdated once the device has a credential again.
  ghost predicate ClaimInv(sys: System, ops: seq<Op>, slack: nat) {
    forall x, id :: x in sys.sent && Claims(x) && id in sys.server.db.creds && x.req.signature.Some?
                    && Registered(sys.server, x.req.signature.value.signer, id)
                    && EpochOf(sys.server.hist, id) != x.epoch ==>
      Outdated(ops, slack, Stamp(x.req))
  }

  ghost predicate PatientInv(sys: System, ops: seq<Op>, slack: nat) {
    Remembered(sys) && StaleInv(sys, ops, slack) && ClaimInv(sys, ops, slack)
  }

  // ---------- Patience makes sending again harmless ----------

  lemma ResentClaim(master: string, sys: System, ops: seq<Op>, op: Op, slack: nat)
    requires SystemInv(master, sys) && PatientInv(sys, ops, slack) && Clocked(ops + [op], slack)
    requires op.Heartbeat? && Resent(sys, op) && Step(master, sys.server, op) != sys.server
    ensures InOwnEpoch(sys, op)
  {
    HeartbeatStep(master, sys.server, op);
    FrameOf(master, sys.server);
    var id := FindDevice(sys.server.db, op.req.deviceId).value;
    var x :| x in sys.sent && x.req == op.req;
    if op.req.body.passwordVersion > 0 {
      if EpochOf(sys.server.hist, id) == x.epoch {
        assert sys.server.hist.epochOf[id] == x.epoch;
      } else {
        OutdatedIsRefused(ops, op, slack);
      }
    }
  }

  // A registered device under the key of a node is the one with its UUID.
  lemma CurrentIsKnown(s: Server, key: string, a: Node, epoch: nat)
    requires Constraints(s.db) && NodeInv(s, key, a) && EpochOwned(s, key, epoch) && Current(s.hist, epoch)
    ensures FindDevice(s.db, a.uuid).Some? && FindDevice(s.db, a.uuid).value in s.db.auth
  {
    var id :| id in s.hist.epochOf && s.hist.epochOf[id] == epoch;
    assert Registered(s, key, id) && DeviceTruth(s, a, id);
    FindDeviceUnique(s.db, a.uuid, id);
  }

  lemma HoldsOrStale(sys: System, key: string)
    requires Constraints(sys.server.db) && key in sys.nodes && NodeInv(sys.server, key, sys.nodes[key])
    requires Remembered(sys) && SentInv(sys)
    requires !HoldsNothing(sys.nodes[key]) && !Stale(sys.server.hist, sys.nodes[key])
    ensures var uuid := sys.nodes[key].uuid;
            FindDevice(sys.server.db, uuid).Some? && FindDevice(sys.server.db, uuid).value in sys.server.db.auth
  {
    var s, a := sys.server, sys.nodes[key];
    if a.loop.acks.passwordVersion > 0 {
      CurrentIsKnown(s, key, a, a.epoch);
    } else if Grants(a) {
      CurrentIsKnown(s, key, a, a.wire.epoch);
    } else {
      var x := Sent(a.wire.req, a.epoch);
      assert Shape(key, a) && x in sys.sent && SentTruth(s, x.req.signature.value.signer, a, x);
      CurrentIsKnown(s, key, a, a.epoch);
    }
  }

  lemma ResentEnrollmentFits(master: string, sys: System, ops: seq<Op>, op: Op, slack: nat)
    requires SystemInv(master, sys) && PatientInv(sys, ops, slack) && Clocked(ops + [op], slack)
    requires op.Enroll? && Resent(sys, op) && Step(master, sys.server, op) != sys.server
    ensures InOwnEpoch(sys, op)
  {
    EnrollStep(master, sys.server, op);
    FrameOf(master, sys.server);
    var x :| x in sys.sent && x.req == op.req;
    var key := op.req.signature.value.signer;
    assert key in sys.nodes && SentTruth(sys.server, key, sys.nodes[key], x);
    assert NodeInv(sys.server, key, sys.nodes[key]);
    if !HoldsNothing(sys.nodes[key]) {
      if Stale(sys.server.hist, sys.nodes[key]) {
        OutdatedIsRefused(ops, op, slack);
      } else {
        HoldsOrStale(sys, key);
      }
    }
  }

  lemma PatienceIsHarmless(master: string, sys: System, ops: seq<Op>, e: Event, slack: nat)
    requires SystemInv(master, sys) && PatientInv(sys, ops, slack) && Clocked(ops + OpOf(sys, e), slack)
    ensures Harmless(master, sys, e)
  {
    if e.Outside? && !Unsigned(sys, e.op) && Resent(sys, e.op) && Step(master, sys.server, e.op) != sys.server {
      if e.op.Enroll? {
        ResentEnrollmentFits(master, sys, ops, e.op, slack);
      } else {
        ResentClaim(master, sys, ops, e.op, slack);
      }
    }
  }

  // ---------- Patience is kept up ----------

  // A call of the control plane leaves every device in its epoch, except one
  // that it resets or deletes.
  lemma EpochsStay(master: string, s: Server, op: Op, id: int)
    requires FrameInv(s) && id in s.hist.epochOf && (op.Reset? || op.Delete? ==> op.id != id)
    ensures id in Step(master, s, op).hist.epochOf && Step(master, s, op).hist.epochOf[id] == s.hist.epochOf[id]
  {
    if op.Enroll? {
      if EnrollVerdict(s.db, op.admitted, op.req, op.verifyAt, op.commitAt).None? {
        EnrollStep(master, s, op);
      }
    } else if op.Heartbeat? {
      if HeartbeatVerdict(master, s.db, op.req, op.verifyAt, op.commitAt).None? {
        HeartbeatStep(master, s, op);
        RecordBeatKeeps(s.hist, FindDevice(s.db, op.req.deviceId).value, op.req, ReplyTo(master, s, op).policy);
      }
    } else if op.Approve? || op.Reject? || op.Rotate? || op.Reset? {
      if ActionVerdict(s.db, op).None? {
        ActionStep(master, s, op);
      }
    } else if op.Delete? {
      DeleteStep(master, s, op);
    } else if op.PutSettings? && op.servers != s.db.settings.servers {
      SettingsStep(master, s, op);
    } else {
      LoggingStep(master, s, op);
    }
  }

  // If a node's epoch ends, what it enrolled with is outdated.
  lemma EndedIsOutdated(master: string, sys: System, ops: seq<Op>, op: Op, slack: nat, delays: Delays, key: string,
                        epoch: nat, x: Sent)
    requires SystemInv(master, sys) && Patient(sys, Outside(op), delays) && LongEnough(delays, slack)
    requires key in sys.nodes && EpochOwned(sys.server, key, epoch)
    requires Current(sys.server.hist, epoch) && !Current(Step(master, sys.server, op).hist, epoch)
    requires x in sys.sent && x.req.body.EnrollBody? && x.req.body.publicKey == Some(key)
    ensures Outdated(ops + [op], slack, Stamp(x.req))
  {
    var s := sys.server;
    FrameOf(master, s);
    var id :| id in s.hist.epochOf && s.hist.epochOf[id] == epoch;
    if (op.Reset? || op.Delete?) ==> op.id != id {
      EpochsStay(master, s, op, id);
      assert false;
    }
    assert Registered(s, key, id) && NodeInv(s, key, sys.nodes[key]) && DeviceTruth(s, sys.nodes[key], id);
    assert SentTruth(s, x.req.signature.value.signer, sys.nodes[x.req.signature.value.signer], x);
    OutdatedNow(ops, op, slack, delays.reset, Stamp(x.req));
  }

  // ---------- Patience over one call ----------

  lemma StaleSteps(master: string, sys: System, ops: seq<Op>, op: Op, slack: nat, delays: Delays, key: string, x: Sent)
    requires SystemInv(master, sys) && Remembered(sys) && Patient(sys, Outside(op), delays) && LongEnough(delays, slack)
    requires key in sys.nodes && !Stale(sys.server.hist, sys.nodes[key])
    requires Stale(Step(master, sys.server, op).hist, sys.nodes[key])
    requires x in sys.sent && x.req.body.EnrollBody? && x.req.body.publicKey == Some(key)
    ensures Outdated(ops + [op], slack, Stamp(x.req))
  {
    var s, a := sys.server, sys.nodes[key];
    var h' := Step(master, s, op).hist;
    assert NodeInv(s, key, a);
    if a.loop.acks.passwordVersion > 0 && !Current(h', a.epoch) {
      EndedIsOutdated(master, sys, ops, op, slack, delays, key, a.epoch, x);
    } else if Grants(a) && !Current(h', a.wire.epoch) {
      EndedIsOutdated(master, sys, ops, op, slack, delays, key, a.wire.epoch, x);
    } else {
      var y := Sent(a.wire.req, a.epoch);
      assert y in sys.sent && SentTruth(s, y.req.signature.value.signer, a, y);
      EndedIsOutdated(master, sys, ops, op, slack, delays, key, a.epoch, x);
    }
  }

  // Claims of a device that has just been given a credential.
  lemma ClaimSteps(master: string, sys: System, ops: seq<Op>, op: Op, slack: nat, delays: Delays, x: Sent, id: int)
    requires SystemInv(master, sys) && ClaimInv(sys, ops, slack) && Patient(sys, Outside(op), delays)
    requires LongEnough(delays, slack)
    requires x in sys.sent && Claims(x)
    requires var s' := Step(master, sys.server, op);
             && id in s'.db.creds && Registered(s', x.req.signature.value.signer, id)
             && EpochOf(s'.hist, id) != x.epoch
    ensures Outdated(ops + [op], slack, Stamp(x.req))
  {
    var s, s', key := sys.server, Step(master, sys.server, op), x.req.signature.value.signer;
    CredentialSteps(master, s, op, key, id);
    FrameOf(master, s);
    if id in s.db.creds {
      OutdatedForGood(ops, [op], slack, Stamp(x.req));
    } else {
      assert NodeInv(s, key, sys.nodes[key]) && DeviceTruth(s, sys.nodes[key], id);
      assert SentTruth(s, key, sys.nodes[key], x);
      OutdatedNow(ops, op, slack, delays.approval, Stamp(x.req));
    }
  }

  // A credential under a key was there before, or is given by this approval.
  lemma CredentialSteps(master: string, s: Server, op: Op, key: string, id: int)
    requires Inv(master, s)
    requires id in Step(master, s, op).db.creds && Registered(Step(master, s, op), key, id)
    ensures Registered(s, key, id) && id in s.db.devices && EpochOf(Step(master, s, op).hist, id) == EpochOf(s.hist, id)
    ensures id in s.db.creds || (op.Approve? && op.id == id)
  {
    FrameOf(master, s);
    assert id in s.db.devices ==> DeviceTables(master, s.db, id);
    CredentialTables(master, s, op, key, id);
    EpochsStay(master, s, op, id);
  }

  lemma CredentialTables(master: string, s: Server, op: Op, key: string, id: int)
    requires FrameInv(s) && (id in s.db.creds ==> id in s.db.auth)
    requires id in s.db.devices && s.db.devices[id].status == Approved ==> id in s.db.creds
    requires id in Step(master, s, op).db.creds && Registered(Step(master, s, op), key, id)
    ensures Registered(s, key, id) && id in s.db.devices && (op.Reset? || op.Delete? ==> op.id != id)
    ensures id in s.db.creds || (op.Approve? && op.id == id)
  {
    if op.Enroll? || op.Heartbeat? {
      CredentialsByAgents(master, s, op);
    } else if op.Approve? || op.Reject? || op.Rotate? || op.Reset? {
      if ActionVerdict(s.db, op).None? {
        ActionStep(master, s, op);
      }
    } else if op.Delete? {
      DeleteStep(master, s, op);
    } else if op.PutSettings? && op.servers != s.db.settings.servers {
      SettingsStep(master, s, op);
    } else {
      LoggingStep(master, s, op);
    }
  }

  // Agents' requests touch no credential, and no key that is there.
  lemma CredentialsByAgents(master: string, s: Server, op: Op)
    requires FromAgent(op)
    ensures Step(master, s, op).db.creds == s.db.creds
    ensures var auth := Step(master, s, op).db.auth;
            forall id :: id in s.db.auth ==> id in auth && auth[id] == s.db.auth[id]
  {
    if op.Enroll? {
      if EnrollVerdict(s.db, op.admitted, op.req, op.verifyAt, op.commitAt).None? {
        EnrollStep(master, s, op);
      }
    } else {
      if HeartbeatVerdict(master, s.db, op.req, op.verifyAt, op.commitAt).None? {
        HeartbeatStep(master, s, op);
      }
    }
  }

  // What is outdated stays so, and what becomes stale or claims from before is.
  lemma PatienceSteps(master: string, sys: System, ops: seq<Op>, op: Op, slack: nat, delays: Delays)
    requires SystemInv(master, sys) && PatientInv(sys, ops, slack)
    requires Patient(sys, Outside(op), delays) && LongEnough(delays, slack)
    ensures PatientInv(sys.(server := Step(master, sys.server, op)), ops + [op], slack)
  {
    var sys' := sys.(server := Step(master, sys.server, op));
    forall key, x | key in sys.nodes && Stale(sys'.server.hist, sys.nodes[key]) && x in sys.sent
                    && x.req.body.EnrollBody? && x.req.body.publicKey == Some(key)
      ensures Outdated(ops + [op], slack, Stamp(x.req))
    {
      if Stale(sys.server.hist, sys.nodes[key]) {
        OutdatedForGood(ops, [op], slack, Stamp(x.req));
      } else {
        StaleSteps(master, sys, ops, op, slack, delays, key, x);
      }
    }
    forall x, id | x in sys.sent && Claims(x) && id in sys'.server.db.creds && x.req.signature.Some?
                   && Registered(sys'.server, x.req.signature.value.signer, id)
                   && EpochOf(sys'.server.hist, id) != x.epoch
      ensures Outdated(ops + [op], slack, Stamp(x.req))
    {
      ClaimSteps(master, sys, ops, op, slack, delays, x, id);
    }
  }

  // ---------- Patience over one event ----------

  // What a node sends, if it is remembered for the first time.
  ghost predicate News(sys: System, sys': System, key: string)
    requires key in sys'.nodes
  {
    && (forall x :: x in sys'.sent ==> x in sys.sent || x in Outgoing(sys'.nodes[key]))
    && (forall x :: x in sys.sent ==> x in sys'.sent)
    && (sys'.nodes[key].wire.AskSigned? ==> Sent(sys'.nodes[key].wire.req, sys'.nodes[key].epoch) in sys'.sent)
  }

  // A node that goes on without becoming stale.
  lemma PatienceGoesOn(sys: System, sys': System, ops: seq<Op>, slack: nat, key: string)
    requires PatientInv(sys, ops, slack) && SentInv(sys') && key in sys.nodes && key in sys'.nodes
    requires Shape(key, sys'.nodes[key]) && News(sys, sys', key)
    requires sys'.server == sys.server && sys'.nodes == sys.nodes[key := sys'.nodes[key]]
    requires Stale(sys.server.hist, sys'.nodes[key]) ==> Stale(sys.server.hist, sys.nodes[key])
    requires forall x :: x in sys'.sent && x !in sys.sent && x.req.body.EnrollBody? ==>
               !Stale(sys.server.hist, sys'.nodes[key])
    requires forall x, id :: x in sys'.sent && x !in sys.sent && Claims(x) && Registered(sys.server, key, id) ==>
               EpochOf(sys.server.hist, id) == x.epoch
    ensures PatientInv(sys', ops, slack)
  {
    assert forall x :: x in sys'.sent && x !in sys.sent ==>
             x.req.signature.Some? && x.req.signature.value.signer == key;
    forall k, x | k in sys'.nodes && Stale(sys'.server.hist, sys'.nodes[k]) && x in sys'.sent
                  && x.req.body.EnrollBody? && x.req.body.publicKey == Some(k)
      ensures Outdated(ops, slack, Stamp(x.req))
    {
      assert SentTruth(sys'.server, x.req.signature.value.signer, sys'.nodes[x.req.signature.value.signer], x);
      assert x in sys.sent;
    }
    forall x, id | x in sys'.sent && Claims(x) && id in sys'.server.db.creds && x.req.signature.Some?
                   && Registered(sys'.server, x.req.signature.value.signer, id)
                   && EpochOf(sys'.server.hist, id) != x.epoch
      ensures Outdated(ops, slack, Stamp(x.req))
    {
      assert x in sys.sent;
    }
  }

  // A node becomes stale by none of its own events.
  lemma OwnEventNotStale(s: Server, key: string, a: Node, a': Node, accepts: SettingsCheck, e: Event)
    requires NodeInv(s, key, a) && !e.Outside? && !e.Deliver? && e.key == key && NodeEvent(key, a, a', accepts, e)
    ensures Stale(s.hist, a') ==> Stale(s.hist, a)
    ensures a'.wire.AskSigned? && a'.wire.req.body.EnrollBody? && (e.Send? || e.Receive?) ==> !Stale(s.hist, a')
    ensures a'.wire.AskSigned? && !e.Send? && !e.Receive? ==> a.wire == a'.wire && a.epoch == a'.epoch
  {
  }

  // What a node newly claims is of the epoch of its device.
  lemma OwnClaim(s: Server, key: string, a: Node, id: int)
    requires NodeInv(s, key, a) && a.wire.AskSigned? && Registered(s, key, id)
    requires a.wire.req.body.HeartbeatBody? && a.wire.req.body.passwordVersion == a.loop.acks.passwordVersion > 0
    ensures EpochOf(s.hist, id) == a.epoch
  {
    assert DeviceTruth(s, a, id);
  }

  lemma OwnNews(master: string, sys: System, key: string, accepts: SettingsCheck, e: Event)
    requires Remembered(sys) && key in sys.nodes && NodeInv(sys.server, key, sys.nodes[key])
    requires !e.Outside? && !e.Deliver? && e.key == key
    requires (e.Send? ==> sys.nodes[key].phase == Idle) && (e.Receive? ==> sys.nodes[key].wire.Answer?)
    ensures var sys' := Do(master, accepts, sys, e);
            && sys'.server == sys.server && key in sys'.nodes && sys'.nodes == sys.nodes[key := sys'.nodes[key]]
            && NodeEvent(key, sys.nodes[key], sys'.nodes[key], accepts, e) && News(sys, sys', key)
            && (sys'.sent == sys.sent || ((e.Send? || e.Receive?) && sys'.sent == sys.sent + Outgoing(sys'.nodes[key])))
  {
    var sys' := Do(master, accepts, sys, e);
    OwnEventNotStale(sys.server, key, sys.nodes[key], sys'.nodes[key], accepts, e);
  }

  lemma OwnEventPatient(master: string, sys: System, ops: seq<Op>, slack: nat, key: string, accepts: SettingsCheck,
                        e: Event)
    requires SystemInv(master, sys) && PatientInv(sys, ops, slack) && key in sys.nodes
    requires !e.Outside? && !e.Deliver? && e.key == key
    requires (e.Send? ==> sys.nodes[key].phase == Idle) && (e.Receive? ==> sys.nodes[key].wire.Answer?)
    ensures PatientInv(Do(master, accepts, sys, e), ops, slack)
  {
    var sys' := Do(master, accepts, sys, e);
    EventKept(master, accepts, sys, e);
    assert NodeInv(sys.server, key, sys.nodes[key]);
    OwnNews(master, sys, key, accepts, e);
    OwnEventGoesOn(sys, sys', ops, slack, key, accepts, e);
  }

  lemma OwnEventGoesOn(sys: System, sys': System, ops: seq<Op>, slack: nat, key: string, accepts: SettingsCheck,
                       e: Event)
    requires PatientInv(sys, ops, slack) && SentInv(sys') && key in sys.nodes && key in sys'.nodes
    requires NodeInv(sys.server, key, sys.nodes[key]) && NodeInv(sys.server, key, sys'.nodes[key])
    requires sys'.server == sys.server && sys'.nodes == sys.nodes[key := sys'.nodes[key]] && News(sys, sys', key)
    requires !e.Outside? && !e.Deliver? && e.key == key
    requires NodeEvent(key, sys.nodes[key], sys'.nodes[key], accepts, e)
    requires sys'.sent == sys.sent || ((e.Send? || e.Receive?) && sys'.sent == sys.sent + Outgoing(sys'.nodes[key]))
    ensures PatientInv(sys', ops, slack)
  {
    var a' := sys'.nodes[key];
    OwnEventNotStale(sys.server, key, sys.nodes[key], a', accepts, e);
    forall x, id | x in sys'.sent && x !in sys.sent && Claims(x) && Registered(sys.server, key, id)
      ensures EpochOf(sys.server.hist, id) == x.epoch
    {
      OwnClaim(sys.server, key, a', id);
    }
    PatienceGoesOn(sys, sys', ops, slack, key);
  }

  // What a node is told is of an epoch that its device is in.
  lemma AnsweredNotStale(master: string, s: Server, key: string, a: Node, op: Op)
    requires Inv(master, s) && NodeInv(s, key, a) && (a.wire.AskBootstrap? || a.wire.AskSigned?)
    requires op.Bootstrap? || op.Enroll? || op.Heartbeat?
    requires op.Heartbeat? ==> a.wire.AskSigned? && op.req == a.wire.req
    requires Stale(Step(master, s, op).hist, Answered(master, s, a, op))
    ensures Stale(Step(master, s, op).hist, a)
  {
    var s', a' := Step(master, s, op), Answered(master, s, a, op);
    if Grants(a') {
      AnswerIsCurrent(master, s, key, a, op);
      KeptByStep(master, s, op);
      HeartbeatStep(master, s, op);
      var id := FindDevice(s.db, op.req.deviceId).value;
      RecordBeatKeeps(s.hist, id, op.req, ReplyTo(master, s, op).policy);
      FrameOf(master, s);
      StillFound(s.db, id, op.req, op.commitAt);
      assert s'.hist.epochOf[id] == a'.wire.epoch;
    }
  }

  lemma DeliveryPatient(master: string, sys: System, ops: seq<Op>, slack: nat, delays: Delays, key: string,
                        accepts: SettingsCheck, e: Event)
    requires SystemInv(master, sys) && PatientInv(sys, ops, slack) && LongEnough(delays, slack) && key in sys.nodes
    requires e.Deliver? && e.key == key && (sys.nodes[key].wire.AskBootstrap? || sys.nodes[key].wire.AskSigned?)
    ensures PatientInv(Do(master, accepts, sys, e), ops + OpOf(sys, e), slack)
  {
    var a := sys.nodes[key];
    var op := Call(a, e.admitted, e.verifyAt, e.commitAt);
    PatienceSteps(master, sys, ops, op, slack, delays);
    var mid, sys' := sys.(server := Step(master, sys.server, op)), Do(master, accepts, sys, e);
    assert NodeInv(sys.server, key, a);
    if Stale(mid.server.hist, sys'.nodes[key]) {
      AnsweredNotStale(master, sys.server, key, a, op);
    }
    EventKept(master, accepts, sys, e);
    assert NodeInv(sys'.server, key, sys'.nodes[key]);
    PatienceGoesOn(mid, sys', ops + [op], slack, key);
  }

  // ---------- Patience over every run ----------

  lemma PatientEvent(master: string, accepts: SettingsCheck, sys: System, ops: seq<Op>, slack: nat, delays: Delays,
                     e: Event)
    requires SystemInv(master, sys) && PatientInv(sys, ops, slack) && Clocked(ops + OpOf(sys, e), slack)
    requires Patient(sys, e, delays) && LongEnough(delays, slack)
    ensures Harmless(master, sys, e)
    ensures PatientInv(Do(master, accepts, sys, e), ops + OpOf(sys, e), slack)
  {
    PatienceIsHarmless(master, sys, ops, e, slack);
    var sys' := Do(master, accepts, sys, e);
    if e.Outside? {
      if OpOf(sys, e) != [] {
        PatienceSteps(master, sys, ops, e.op, slack, delays);
      } else {
        assert sys' == sys && ops + [] == ops;
      }
    } else if e.key in sys.nodes && e.Deliver? && OpOf(sys, e) != [] {
      DeliveryPatient(master, sys, ops, slack, delays, e.key, accepts, e);
    } else {
      assert ops + [] == ops;
      if e.key in sys.nodes && !e.Deliver? && (e.Send? ==> sys.nodes[e.key].phase == Idle)
         && (e.Receive? ==> sys.nodes[e.key].wire.Answer?) {
        OwnEventPatient(master, sys, ops, slack, e.key, accepts, e);
      } else {
        assert sys' == sys;
      }
    }
  }

  // In a patient run everything sent again stays within its epoch or is refused.
  lemma {:induction false} PatientIsWithin(master: string, accepts: SettingsCheck, first: System, events: seq<Event>,
                                           slack: nat, delays: Delays)
    requires Initial(first) && PatientRun(master, accepts, first, events, delays) && LongEnough(delays, slack)
    requires Clocked(OpsOf(master, accepts, first, events), slack)
    ensures WithinEpochs(master, accepts, first, events)
    ensures PatientInv(DoAll(master, accepts, first, events), OpsOf(master, accepts, first, events), slack)
    decreases |events|
  {
    if events == [] {
      assert forall key :: key in first.nodes ==> FreshNode(first.nodes[key]);
    } else {
      var before, e := events[..|events| - 1], events[|events| - 1];
      var sys, ops := DoAll(master, accepts, first, before), OpsOf(master, accepts, first, before);
      ClockedBefore(ops, OpOf(sys, e), slack);
      PatientIsWithin(master, accepts, first, before, slack, delays);
      ReachableSystem(master, accepts, first, before);
      PatientEvent(master, accepts, sys, ops, slack, delays, e);
    }
  }

  lemma ClockedBefore(ops: seq<Op>, more: seq<Op>, slack: nat)
    requires Clocked(ops + more, slack)
    ensures Clocked(ops, slack)
  {
    var all := ops + more;
    assert forall i :: 0 <= i < |ops| ==> all[i] == ops[i];
  }
}
