// The audit log alone tells the standing of every device.
module AuditReplay {
  import opened Text
  import opened Schema
  import opened Handlers
  import opened Runs

  datatype Standing = Standing(status: Status, version: nat)

  function Replayed(st: Standing, row: AuditRow, id: int): Standing {
    if row.device != Some(id) then st
    else
      match row.action
      case DeviceApproved => Standing(Approved, st.version + 1)
      case PasswordRotated => Standing(st.status, st.version + 1)
      case DeviceRejected => Standing(Rejected, st.version)
      case IdentityReset => Standing(Pending, 0)
      case DeviceDeleted => Standing(Pending, 0)
      case _ => st
  }

  // Reading the log from the beginning with one id in mind.
  function Replay(rows: seq<AuditRow>, id: int): Standing
    decreases |rows|
  {
    if rows == [] then Standing(Pending, 0)
    else Replayed(Replay(rows[..|rows| - 1], id), rows[|rows| - 1], id)
  }

  // How many times the settings were written, changed or not.
  function SettingsRows(rows: seq<AuditRow>): nat
    decreases |rows|
  {
    if rows == [] then 0
    else SettingsRows(rows[..|rows| - 1]) + (if rows[|rows| - 1].action == SettingsChanged then 1 else 0)
  }

  function StandingOf(db: Db, id: int): Standing {
    if id in db.devices then Standing(db.devices[id].status, CredVersion(db, id)) else Standing(Pending, 0)
  }

  ghost predicate AuditInv(db: Db) {
    && (forall id :: Replay(db.audit, id) == StandingOf(db, id))
    && db.settings.version <= 1 + SettingsRows(db.audit)
  }

  // A handler that appends one row, whose effect on every standing is that row's.
  lemma OneRow(db: Db, db': Db, row: AuditRow)
    requires AuditInv(db) && db'.audit == db.audit + [row]
    requires forall id :: StandingOf(db', id) == Replayed(StandingOf(db, id), row, id)
    requires db'.settings.version <= db.settings.version + if row.action == SettingsChanged then 1 else 0
    ensures AuditInv(db')
  {
  }

  lemma ActionAudited(master: string, db: Db, op: Op)
    requires AuditInv(db) && (op.Approve? || op.Reject? || op.Rotate? || op.Reset?)
    ensures AuditInv(Handle(master, db, op).0)
  {
    if ActionVerdict(db, op).None? {
      var db' := ActionEffect(master, db, op);
      OneRow(db, db', db'.audit[|db'.audit| - 1]);
    }
  }

  lemma UnauditedStep(master: string, db: Db, op: Op)
    requires AuditInv(db) && Constraints(db) && (op.Enroll? || op.Heartbeat? || op.Bootstrap?)
    ensures AuditInv(Handle(master, db, op).0)
  {
    var db' := Handle(master, db, op).0;
    forall id ensures StandingOf(db', id) == StandingOf(db, id) {
    }
  }

  lemma StepAudited(master: string, db: Db, op: Op)
    requires AuditInv(db) && Constraints(db)
    ensures AuditInv(Handle(master, db, op).0)
  {
    var db' := Handle(master, db, op).0;
    if op.Enroll? || op.Heartbeat? || op.Bootstrap? {
      UnauditedStep(master, db, op);
    } else if op.Approve? || op.Reject? || op.Rotate? || op.Reset? {
      ActionAudited(master, db, op);
    } else if db' != db {
      OneRow(db, db', db'.audit[|db'.audit| - 1]);
    }
  }

  // In every reachable state, replaying the audit rows of an id gives its
  // device's status and password version: approvals and rotations since the
  // last reset or deletion.  An id without a device replays to a clean slate,
  // so the log stays right when the id is used again.
  lemma {:induction false} AuditTellsStanding(master: string, ops: seq<Op>)
    ensures AuditInv(Run(master, FIRST, ops).db)
    decreases |ops|
  {
    if ops == [] {
    } else {
      var before := ops[..|ops| - 1];
      AuditTellsStanding(master, before);
      Reachable(master, before);
      StepAudited(master, Run(master, FIRST, before).db, ops[|ops| - 1]);
    }
  }
}
