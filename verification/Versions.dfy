// What version numbers mean over a whole run: they only grow, they identify
// what was handed out, and every policy handed out is one the client accepts.
module Versions {
  import opened Text
  import opened Tokens
  import opened Schema
  import opened Messages
  import opened Handlers
  import opened Runs

  // ---------- Two moments of one run ----------

  // Settings and passwords are only ever appended, an epoch once left is never
  // entered again, and a key stays with its device for the whole epoch.
  ghost predicate Evolves(s: Server, s': Server) {
    && s.hist.settingsLog <= s'.hist.settingsLog
    && |s.hist.epochs| <= |s'.hist.epochs|
    && (forall e :: 0 <= e < |s.hist.epochs| ==> s.hist.epochs[e] <= s'.hist.epochs[e])
    && (forall id :: id in s'.hist.epochOf && s'.hist.epochOf[id] < |s.hist.epochs| ==>
          id in s.hist.epochOf && s.hist.epochOf[id] == s'.hist.epochOf[id])
    && (forall id :: id in s.db.auth && SameEpoch(s, s', id) ==> id in s'.db.auth && s'.db.auth[id] == s.db.auth[id])
  }

  ghost predicate SameEpoch(s: Server, s': Server, id: int) {
    id in s.hist.epochOf && id in s'.hist.epochOf && s.hist.epochOf[id] == s'.hist.epochOf[id]
  }

  lemma EvolvesTransitive(a: Server, b: Server, c: Server)
    requires Evolves(a, b) && Evolves(b, c)
    requires forall id :: id in a.hist.epochOf ==> a.hist.epochOf[id] < |a.hist.epochs|
    ensures Evolves(a, c)
  {
  }

  lemma EnrollEvolves(s: Server, id: int, req: Request, commitAt: int)
    requires FrameInv(s) && req.body.EnrollBody? && req.body.publicKey.Some?
    ensures Evolves(s, Server(EnrollEffect(s.db, id, req, commitAt), EnrolledHistory(s, id, req)))
  {
  }

  lemma EnrollStepEvolves(master: string, s: Server, op: Op)
    requires FrameInv(s) && op.Enroll?
    ensures Evolves(s, Step(master, s, op))
  {
    if EnrollVerdict(s.db, op.admitted, op.req, op.verifyAt, op.commitAt).None? {
      EnrollStep(master, s, op);
      EnrollEvolves(s, EnrollTarget(s.db, op.req.body.uuid), op.req, op.commitAt);
    }
  }

  lemma HeartbeatStepEvolves(master: string, s: Server, op: Op)
    requires FrameInv(s) && op.Heartbeat?
    ensures Evolves(s, Step(master, s, op))
  {
    if HeartbeatVerdict(master, s.db, op.req, op.verifyAt, op.commitAt).None? {
      HeartbeatStep(master, s, op);
    }
  }

  lemma ActionStepEvolves(master: string, s: Server, op: Op)
    requires FrameInv(s) && (op.Approve? || op.Reject? || op.Rotate? || op.Reset?)
    ensures Evolves(s, Step(master, s, op))
  {
    hide FormatInt, Opened, Encode;
    if ActionVerdict(s.db, op).None? {
      ActionStep(master, s, op);
    }
  }

  lemma StepEvolves(master: string, s: Server, op: Op)
    requires FrameInv(s)
    ensures Evolves(s, Step(master, s, op))
  {
    if op.Enroll? {
      EnrollStepEvolves(master, s, op);
    } else if op.Heartbeat? {
      HeartbeatStepEvolves(master, s, op);
    } else if op.Approve? || op.Reject? || op.Rotate? || op.Reset? {
      ActionStepEvolves(master, s, op);
    } else if op.Delete? {
      DeleteStep(master, s, op);
    } else if op.PutSettings? && op.servers != s.db.settings.servers {
      SettingsStep(master, s, op);
    } else {
      LoggingStep(master, s, op);
    }
  }

  lemma {:induction false} RunEvolves(master: string, s: Server, ops: seq<Op>)
    requires Inv(master, s)
    ensures Evolves(s, Run(master, s, ops))
    decreases |ops|
  {
    if ops == [] {
    } else {
      var before := ops[..|ops| - 1];
      RunEvolves(master, s, before);
      KeptByRun(master, s, before);
      FrameOf(master, Run(master, s, before));
      StepEvolves(master, Run(master, s, before), ops[|ops| - 1]);
      EvolvesTransitive(s, Run(master, s, before), Run(master, s, ops));
    }
  }

  // A run continued is a longer run.
  lemma {:induction false} RunConcat(master: string, s: Server, a: seq<Op>, b: seq<Op>)
    ensures Run(master, s, a + b) == Run(master, Run(master, s, a), b)
    decreases |b|
  {
    if b == [] {
      assert a + b == a;
    } else {
      assert (a + b)[..|a + b| - 1] == a + b[..|b| - 1];
      RunConcat(master, s, a, b[..|b| - 1]);
    }
  }

  // ---------- Main results ----------

  // Both version numbers only grow: the policy version over the whole run, the
  // password version through every reject and approval of one epoch, during
  // which the device also keeps its key.
  lemma VersionsOnlyGrow(master: string, ops: seq<Op>, more: seq<Op>, id: int)
    ensures var s, s' := Run(master, FIRST, ops), Run(master, FIRST, ops + more);
            && s.db.settings.version <= s'.db.settings.version
            && (SameEpoch(s, s', id) ==>
                  && CredVersion(s.db, id) <= CredVersion(s'.db, id)
                  && Passwords(s.hist, id) <= Passwords(s'.hist, id)
                  && (id in s.db.auth ==> id in s'.db.auth && s'.db.auth[id] == s.db.auth[id]))
  {
    var s, s' := Run(master, FIRST, ops), Run(master, FIRST, ops + more);
    Reachable(master, ops);
    Reachable(master, ops + more);
    RunConcat(master, FIRST, ops, more);
    RunEvolves(master, s, more);
    if SameEpoch(s, s', id) {
      assert DeviceHistory(master, s, id) && DeviceHistory(master, s', id);
    }
  }

  // Equal version numbers mean equal content: any two policies handed out in a
  // run with the same policy version carry the same settings, and any two
  // passwords handed out in one credential epoch with the same password
  // version are the same password.
  lemma VersionsIdentifyContent(master: string, ops: seq<Op>)
    ensures var h := Run(master, FIRST, ops).hist;
            && (forall i, j :: 0 <= i < |h.published| && 0 <= j < |h.published| ==>
                  h.published[i].version == h.published[j].version ==> h.published[i].servers == h.published[j].servers)
            && (forall i, j :: 0 <= i < |h.grants| && 0 <= j < |h.grants| ==>
                  h.grants[i].epoch == h.grants[j].epoch && h.grants[i].version == h.grants[j].version ==>
                  h.grants[i].password == h.grants[j].password)
  {
    Reachable(master, ops);
    LogsIdentifyContent(Run(master, FIRST, ops).hist);
  }

  lemma LogsIdentifyContent(h: History)
    requires LogsInv(h)
    ensures forall i, j :: 0 <= i < |h.published| && 0 <= j < |h.published| ==>
              h.published[i].version == h.published[j].version ==> h.published[i].servers == h.published[j].servers
    ensures forall i, j :: 0 <= i < |h.grants| && 0 <= j < |h.grants| ==>
              h.grants[i].epoch == h.grants[j].epoch && h.grants[i].version == h.grants[j].version ==>
              h.grants[i].password == h.grants[j].password
  {
  }

  // An approved device's credential can always be revealed and granted, and
  // both hand out the password written last, with its version.
  lemma RevealMatchesGrant(master: string, ops: seq<Op>, s: Server, id: int)
    requires s == Run(master, FIRST, ops)
    requires id in s.db.devices && s.db.devices[id].status == Approved
    ensures var passwords := Passwords(s.hist, id);
            && passwords != []
            && RevealVerdict(master, s.db, id).None?
            && (forall now :: ReplyTo(master, s, Reveal(id, now)) == Revealed(passwords[|passwords| - 1], |passwords|))
            && GrantedAccess(master, s.db, id) == Some(Access(true, passwords[|passwords| - 1], |passwords|, true))
  {
    Reachable(master, ops);
    assert DeviceTables(master, s.db, id) && DeviceHistory(master, s, id);
    ApprovedGrant(master, s, id);
  }

  lemma ApprovedGrant(master: string, s: Server, id: int)
    requires DeviceInv(master, s, id) && s.db.devices[id].status == Approved
    ensures var passwords := Passwords(s.hist, id);
            && passwords != []
            && RevealVerdict(master, s.db, id).None?
            && (forall now :: ReplyTo(master, s, Reveal(id, now)) == Revealed(passwords[|passwords| - 1], |passwords|))
            && GrantedAccess(master, s.db, id) == Some(Access(true, passwords[|passwords| - 1], |passwords|, true))
  {
    hide FormatInt;
  }

  // With the key that sealed them, stored credentials never fail to open.
  lemma CredentialsAlwaysAvailable(master: string, ops: seq<Op>, op: Op)
    ensures ReplyTo(master, Run(master, FIRST, ops), op) != Refused(CredentialUnavailable)
    ensures op.Heartbeat? ==> ReplyTo(master, Run(master, FIRST, ops), op) != Refused(NotFound)
  {
    Reachable(master, ops);
    NeverUnavailable(master, Run(master, FIRST, ops), op);
  }

  lemma NeverUnavailable(master: string, s: Server, op: Op)
    requires Inv(master, s)
    ensures ReplyTo(master, s, op) != Refused(CredentialUnavailable)
    ensures op.Heartbeat? ==> ReplyTo(master, s, op) != Refused(NotFound)
  {
    assert forall id :: id in s.db.devices ==> DeviceTables(master, s.db, id);
  }

  // What a heartbeat is told: the current settings, and the last password of
  // the epoch exactly if the device is approved.
  ghost predicate TellsCurrent(s: Server, id: int, p: Policy)
    requires id in s.db.devices
  {
    var passwords := Passwords(s.hist, id);
    && p.policyVersion == |s.hist.settingsLog| > 0
    && ServersOf(p.rustdesk) == s.hist.settingsLog[|s.hist.settingsLog| - 1]
    && (if s.db.devices[id].status == Approved
        then passwords != [] && p.access == Some(Access(true, passwords[|passwords| - 1], |passwords|, true))
        else p.access == None)
  }

  lemma BeatTellsCurrent(master: string, s: Server, op: Op)
    requires Inv(master, s) && op.Heartbeat? && ReplyTo(master, s, op).Beat?
    ensures FindDevice(s.db, op.req.deviceId).Some?
    ensures TellsCurrent(s, FindDevice(s.db, op.req.deviceId).value, ReplyTo(master, s, op).policy)
  {
    HeartbeatStep(master, s, op);
    var id := FindDevice(s.db, op.req.deviceId).value;
    assert DeviceTables(master, s.db, id) && DeviceHistory(master, s, id);
    if s.db.devices[id].status == Approved {
      ApprovedGrant(master, s, id);
    }
  }

  // What an action makes of the passwords of its device, and of all others.
  function PasswordsAfter(passwords: seq<string>, op: Op): seq<string> {
    match op
    case Approve(_, seed, _, _) => passwords + [Encode(seed)]
    case Rotate(_, seed, _, _) => passwords + [Encode(seed)]
    case Reset(_, _) => []
    case _ => passwords
  }

  lemma ActionPasswords(master: string, s: Server, op: Op)
    requires Inv(master, s) && (op.Approve? || op.Reject? || op.Rotate? || op.Reset?)
    requires ReplyTo(master, s, op) == Done
    ensures var s' := Step(master, s, op);
            && Passwords(s'.hist, op.id) == PasswordsAfter(Passwords(s.hist, op.id), op)
            && forall id :: id in s'.db.devices && id != op.id ==> Passwords(s'.hist, id) == Passwords(s.hist, id)
  {
    ActionStep(master, s, op);
    if op.Reset? {
      LogsNewEpoch(s.hist, op.id);
    } else if !op.Reject? {
      LogsAddPassword(s.hist, op.id, Encode(op.seed));
    }
  }

  // While the stored settings are acceptable to the client, so is every policy
  // the control plane sends.
  lemma RepliesAreClientValid(master: string, db: Db, op: Op, accepts: SettingsCheck)
    requires TableInv(master, db) && accepts(db.settings.servers)
    ensures var reply := Handle(master, db, op).1;
            reply.Published? || reply.Beat? ==> Valid(reply.policy, accepts)
  {
  }
}
