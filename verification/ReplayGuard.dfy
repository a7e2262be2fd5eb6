// No signed (timestamp, nonce) pair is accepted twice in one epoch of a
// device, however often the table of used nonces is purged: the acceptance
// window ends 300 seconds after the timestamp, the row lives until 301, and
// one second is exactly how far the clock may advance in between.
module ReplayGuard {
  import opened Text
  import opened Schema
  import opened Messages
  import opened Handlers
  import opened Runs

  predicate FromAgent(op: Op) { op.Enroll? || op.Heartbeat? }

  // Transactions commit in the order of the clock, and no reading used to purge
  // is more than `slack` seconds after the one that checked the signature.
  ghost predicate Timely(ops: seq<Op>, slack: nat) {
    && (forall i :: 0 <= i < |ops| && FromAgent(ops[i]) ==>
          ops[i].verifyAt <= ops[i].commitAt <= ops[i].verifyAt + slack)
    && (forall i, j :: 0 <= i < j < |ops| && FromAgent(ops[i]) && FromAgent(ops[j]) ==>
          ops[i].commitAt <= ops[j].commitAt)
  }

  ghost predicate NoRepeats(accepted: seq<Acceptance>) {
    forall i, j :: 0 <= i < j < |accepted| ==> accepted[i] != accepted[j]
  }

  // An accepted pair is still in the table, or too old to be accepted again.
  ghost predicate Guarded(s: Server, a: Acceptance, clock: int) {
    forall id :: id in s.hist.epochOf && s.hist.epochOf[id] == a.epoch ==>
      || ((id, a.nonce) in s.db.nonces && s.db.nonces[(id, a.nonce)] == a.stamp + 301)
      || a.stamp + 301 < clock
  }

  ghost predicate GuardInv(s: Server, clock: int) {
    && (forall k :: 0 <= k < |s.hist.accepted| ==> Guarded(s, s.hist.accepted[k], clock))
    && NoRepeats(s.hist.accepted)
  }

  // Accepting a fresh pair for device `id`.
  lemma AcceptGuarded(s: Server, s': Server, id: int, req: Request, verifyAt: int, commitAt: int)
    requires GuardInv(s, commitAt) && LogsInv(s.hist)
    requires InWindow(req.stamp, verifyAt) && commitAt <= verifyAt + 1
    requires (id, req.nonce) !in Purged(s.db.nonces, commitAt)
    requires s'.db.nonces == Purged(s.db.nonces, commitAt)[(id, req.nonce) := Stamp(req) + 301]
    requires id in s'.hist.epochOf
    requires s'.hist.accepted == s.hist.accepted + [Acceptance(s'.hist.epochOf[id], Stamp(req), req.nonce)]
    requires s'.hist.epochOf == s.hist.epochOf
          || (id !in s.hist.epochOf && s'.hist.epochOf == s.hist.epochOf[id := |s.hist.epochs|])
    ensures GuardInv(s', commitAt)
  {
  }

  lemma EnrolledGuarded(s: Server, id: int, req: Request, verifyAt: int, commitAt: int)
    requires FrameInv(s) && GuardInv(s, commitAt)
    requires req.body.EnrollBody? && req.body.publicKey.Some?
    requires InWindow(req.stamp, verifyAt) && commitAt <= verifyAt + 1
    requires (id, req.nonce) !in Purged(s.db.nonces, commitAt)
    ensures GuardInv(Server(EnrollEffect(s.db, id, req, commitAt), EnrolledHistory(s, id, req)), commitAt)
  {
    var s' := Server(EnrollEffect(s.db, id, req, commitAt), EnrolledHistory(s, id, req));
    EnrollAcceptance(s, id, req, commitAt);
    AcceptGuarded(s, s', id, req, verifyAt, commitAt);
  }

  lemma EnrollAcceptance(s: Server, id: int, req: Request, commitAt: int)
    requires s.hist.epochOf.Keys == s.db.devices.Keys && req.body.EnrollBody? && req.body.publicKey.Some?
    ensures var h := EnrolledHistory(s, id, req);
            && EnrollEffect(s.db, id, req, commitAt).nonces
               == Purged(s.db.nonces, commitAt)[(id, req.nonce) := Stamp(req) + 301]
            && id in h.epochOf
            && h.accepted == s.hist.accepted + [Acceptance(h.epochOf[id], Stamp(req), req.nonce)]
            && (h.epochOf == s.hist.epochOf
                || (id !in s.hist.epochOf && h.epochOf == s.hist.epochOf[id := |s.hist.epochs|]))
  {
  }

  lemma EnrollGuarded(master: string, s: Server, op: Op)
    requires FrameInv(s) && op.Enroll? && op.commitAt <= op.verifyAt + 1
    requires GuardInv(s, op.commitAt)
    ensures GuardInv(Step(master, s, op), op.commitAt)
  {
    if EnrollVerdict(s.db, op.admitted, op.req, op.verifyAt, op.commitAt).None? {
      EnrollStep(master, s, op);
      EnrolledGuarded(s, EnrollTarget(s.db, op.req.body.uuid), op.req, op.verifyAt, op.commitAt);
    }
  }

  lemma HeartbeatGuarded(master: string, s: Server, op: Op)
    requires FrameInv(s) && op.Heartbeat? && op.commitAt <= op.verifyAt + 1
    requires GuardInv(s, op.commitAt)
    ensures GuardInv(Step(master, s, op), op.commitAt)
  {
    if HeartbeatVerdict(master, s.db, op.req, op.verifyAt, op.commitAt).None? {
      HeartbeatStep(master, s, op);
      AcceptGuarded(s, Step(master, s, op), FindDevice(s.db, op.req.deviceId).value, op.req, op.verifyAt, op.commitAt);
    }
  }

  // Administration forgets nonces only of devices whose epoch it ends.
  lemma ForgettingGuarded(s: Server, s': Server, clock: int)
    requires GuardInv(s, clock) && LogsInv(s.hist) && s'.hist.accepted == s.hist.accepted
    requires forall i :: i in s'.hist.epochOf && s'.hist.epochOf[i] < |s.hist.epochs| ==>
               i in s.hist.epochOf && s'.hist.epochOf[i] == s.hist.epochOf[i]
    requires forall k :: k in s.db.nonces && k.0 in s'.hist.epochOf && s'.hist.epochOf[k.0] < |s.hist.epochs| ==>
               k in s'.db.nonces && s'.db.nonces[k] == s.db.nonces[k]
    ensures GuardInv(s', clock)
  {
  }

  lemma AdminStepGuarded(master: string, s: Server, op: Op, clock: int)
    requires FrameInv(s) && !FromAgent(op) && GuardInv(s, clock)
    ensures GuardInv(Step(master, s, op), clock)
  {
    if op.Approve? || op.Reject? || op.Rotate? || op.Reset? {
      if ActionVerdict(s.db, op).None? {
        ActionStep(master, s, op);
      }
    } else if op.Delete? {
      DeleteStep(master, s, op);
    } else if op.PutSettings? && op.servers != s.db.settings.servers {
      SettingsStep(master, s, op);
    } else {
      LoggingStep(master, s, op);
    }
    ForgettingGuarded(s, Step(master, s, op), clock);
  }

  lemma {:induction false} RunGuarded(master: string, ops: seq<Op>, clock: int)
    requires Timely(ops, 1)
    requires forall i :: 0 <= i < |ops| && FromAgent(ops[i]) ==> ops[i].commitAt <= clock
    ensures GuardInv(Run(master, FIRST, ops), clock)
    decreases |ops|
  {
    if ops == [] {
    } else {
      var before, op := ops[..|ops| - 1], ops[|ops| - 1];
      Reachable(master, before);
      FrameOf(master, Run(master, FIRST, before));
      if FromAgent(op) {
        RunGuarded(master, before, op.commitAt);
        if op.Enroll? {
          EnrollGuarded(master, Run(master, FIRST, before), op);
        } else {
          HeartbeatGuarded(master, Run(master, FIRST, before), op);
        }
      } else {
        RunGuarded(master, before, clock);
        AdminStepGuarded(master, Run(master, FIRST, before), op, clock);
      }
    }
  }

  // ---------- Sending an accepted request again ----------

  function Sender(req: Request): string {
    if req.body.EnrollBody? then req.body.uuid else req.deviceId
  }

  // A request whose timestamp and nonce were accepted in the current epoch of
  // its device.
  ghost predicate Repeats(s: Server, op: Op) {
    && FromAgent(op)
    && FindDevice(s.db, Sender(op.req)).Some?
    && var id := FindDevice(s.db, Sender(op.req)).value;
       Acceptance(EpochOf(s.hist, id), Stamp(op.req), op.req.nonce) in s.hist.accepted
  }

  lemma RepeatIsLogged(master: string, s: Server, op: Op)
    requires Repeats(s, op) && Step(master, s, op) != s
    ensures !NoRepeats(Step(master, s, op).hist.accepted)
  {
    var id := FindDevice(s.db, Sender(op.req)).value;
    var a := Acceptance(EpochOf(s.hist, id), Stamp(op.req), op.req.nonce);
    var k :| 0 <= k < |s.hist.accepted| && s.hist.accepted[k] == a;
    if op.Enroll? {
      EnrollStep(master, s, op);
    } else {
      HeartbeatStep(master, s, op);
    }
    var accepted := Step(master, s, op).hist.accepted;
    assert accepted == s.hist.accepted + [a];
    assert accepted[k] == accepted[|s.hist.accepted|];
  }

  // In a timely run, sending an accepted request again in the same epoch
  // changes nothing.
  lemma ResendingIsIdle(master: string, ops: seq<Op>, op: Op)
    requires Timely(ops + [op], 1) && Repeats(Run(master, FIRST, ops), op)
    ensures Step(master, Run(master, FIRST, ops), op) == Run(master, FIRST, ops)
  {
    var all := ops + [op];
    assert all[..|all| - 1] == ops;
    var clock := LatestCommit(all);
    RunGuarded(master, all, clock);
    if Step(master, Run(master, FIRST, ops), op) != Run(master, FIRST, ops) {
      RepeatIsLogged(master, Run(master, FIRST, ops), op);
    }
  }

  // ---------- One second more is too much ----------

  const EXAMPLE_KEY := "kkkkkkkkkkkkkkkkkkkkkkkkkkkkkkkk"
  const EXAMPLE_NONCE := "nnnnnnnnnnnnnnnn"
  const EXAMPLE_UUID := "00000000-0000-4000-8000-000000000000"

  function ExampleEnrollment(): Request {
    var body := EnrollBody(EXAMPLE_UUID, Some(EXAMPLE_KEY), Info("", "h", "", "", "", "", ""), 0);
    Request("", EXAMPLE_UUID, FormatInt(0), EXAMPLE_NONCE,
            Some(Signature(EXAMPLE_KEY, Message(VERB, ENROLL_PATH, FormatInt(0), EXAMPLE_NONCE, body))), body)
  }

  lemma ExampleWellFormed()
    ensures WellFormedEnrollment(ExampleEnrollment().body)
  {
    assert ValidUuid(EXAMPLE_UUID);
  }

  lemma ExampleSigned(verifyAt: int)
    requires 0 <= verifyAt <= 300
    ensures EnrollmentSigned(ExampleEnrollment(), verifyAt)
    ensures Stamp(ExampleEnrollment()) == 0
  {
  }

  function ExampleRun(): seq<Op> {
    [Enroll(true, ExampleEnrollment(), 0, 0), Enroll(true, ExampleEnrollment(), 300, 302)]
  }

  // The same enrollment, accepted at its own time and again 300 seconds later
  // by a transaction that purges two seconds after checking the signature.
  lemma AcceptedTwice(master: string)
    ensures Timely(ExampleRun(), 2)
    ensures !NoRepeats(Run(master, FIRST, ExampleRun()).hist.accepted)
  {
    var first, second := ExampleRun()[0], ExampleRun()[1];
    var one := Step(master, FIRST, first);
    var two := Step(master, one, second);
    assert ExampleRun()[..1] == [first] && [first][..0] == [];
    assert Run(master, FIRST, []) == FIRST;
    assert Run(master, FIRST, [first]) == one;
    assert Run(master, FIRST, ExampleRun()) == two;
    FirstAcceptance(master);
    SecondAcceptance(master, one);
    assert two.hist.accepted[0] == two.hist.accepted[1];
  }

  ghost predicate ExampleEnrolled(s: Server) {
    var id := NextId({});
    && HasUuid(s.db, EXAMPLE_UUID, id) && Constraints(s.db)
    && s.db.auth == map[id := EXAMPLE_KEY]
    && s.db.nonces == map[(id, EXAMPLE_NONCE) := 301]
    && s.hist.epochOf == map[id := 0]
    && s.hist.accepted == [Acceptance(0, 0, EXAMPLE_NONCE)]
  }

  lemma FirstAcceptance(master: string)
    ensures ExampleEnrolled(Step(master, FIRST, ExampleRun()[0]))
  {
    var op := ExampleRun()[0];
    ExampleWellFormed();
    ExampleSigned(0);
    assert FindDevice(EMPTY_DB, EXAMPLE_UUID).None?;
    assert EMPTY_DB.devices.Keys == {};
    assert Purged(map[], 0) == map[];
    EnrollStep(master, FIRST, op);
    EnrollKeepsConstraints(EMPTY_DB, NextId({}), op.req, 0);
  }

  lemma SecondAcceptance(master: string, s: Server)
    requires ExampleEnrolled(s)
    ensures Step(master, s, ExampleRun()[1]).hist.accepted
         == [Acceptance(0, 0, EXAMPLE_NONCE), Acceptance(0, 0, EXAMPLE_NONCE)]
  {
    var op := ExampleRun()[1];
    ExampleWellFormed();
    ExampleSigned(300);
    FindDeviceUnique(s.db, EXAMPLE_UUID, NextId({}));
    assert Purged(s.db.nonces, 302) == map[];
    EnrollStep(master, s, op);
  }

  // ---------- Main result ----------

  ghost predicate AtMostOnce(slack: nat) {
    forall master, ops :: Timely(ops, slack) ==> NoRepeats(Run(master, FIRST, ops).hist.accepted)
  }

  lemma LatestCommit(ops: seq<Op>) returns (clock: int)
    ensures forall i :: 0 <= i < |ops| && FromAgent(ops[i]) ==> ops[i].commitAt <= clock
  {
    clock := 0;
    for k := 0 to |ops|
      invariant forall i :: 0 <= i < k && FromAgent(ops[i]) ==> ops[i].commitAt <= clock
    {
      if FromAgent(ops[k]) && clock < ops[k].commitAt {
        clock := ops[k].commitAt;
      }
    }
  }

  // At-most-once acceptance holds in every run exactly when the slack is at
  // most one second.
  lemma AtMostOnceIffOneSecond(slack: nat)
    ensures AtMostOnce(slack) <==> slack <= 1
  {
    if slack <= 1 {
      forall master, ops | Timely(ops, slack) ensures NoRepeats(Run(master, FIRST, ops).hist.accepted) {
        var clock := LatestCommit(ops);
        assert Timely(ops, 1);
        RunGuarded(master, ops, clock);
      }
    } else {
      AcceptedTwice("");
      assert Timely(ExampleRun(), slack);
    }
  }
}
