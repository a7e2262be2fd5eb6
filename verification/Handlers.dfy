// What each control-plane handler decides and what it commits.  A handler is a
// verdict (the first check that refuses, if any) and an effect (the tables
// after commit); a refused request changes nothing, because its transaction
// rolls back.
module Handlers {
  import opened Text
  import opened Tokens
  import opened Schema
  import opened Messages

  // One committed or refused handler call, with the readings of the clock and
  // the random bytes that it draws.
  datatype Op =
    | Bootstrap(admitted: bool, now: int)
    | Enroll(admitted: bool, req: Request, verifyAt: int, commitAt: int)
    | Heartbeat(req: Request, verifyAt: int, commitAt: int)
    | Approve(id: int, seed: Seed, sealNonce: SealNonce, now: int)
    | Reject(id: int, now: int)
    | Rotate(id: int, seed: Seed, sealNonce: SealNonce, now: int)
    | Reset(id: int, now: int)
    | Delete(id: int, now: int)
    | Reveal(id: int, now: int)
    | PutSettings(servers: Servers, valid: bool, now: int)
    | Session(action: AuditAction, now: int)

  // ---------- Shared pieces ----------

  function PolicyOf(settings: Settings, now: int, status: string, access: Option<Access>): Policy {
    Policy(1, now, status, settings.version,
           RustDesk(settings.servers.idServer, settings.servers.relayServer, settings.servers.key, ""), access)
  }

  // The plaintext of a stored credential, if it still opens.
  function Opened(master: string, db: Db, id: int): Option<string>
    requires id in db.creds
  {
    var c := db.creds[id];
    if |c.nonce| != NONCE_SIZE then None else Open(master, c.nonce, c.ciphertext, FormatInt(id))
  }

  function WithCredential(creds: map<int, Credential>, master: string, id: int, seed: Seed, nonce: string)
    : map<int, Credential>
  {
    creds[id := Credential(if id in creds then creds[id].version + 1 else 1, nonce,
                           Sealed(master, nonce, Encode(seed), FormatInt(id)))]
  }

  function Logged(db: Db, action: AuditAction, id: Option<int>, now: int): Db {
    db.(audit := db.audit + [AuditRow(now, action, id)])
  }

  // ---------- Enrollment ----------

  ghost function EnrollTarget(db: Db, uuid: string): int {
    match FindDevice(db, uuid)
    case Some(id) => id
    case None => NextId(db.devices.Keys)
  }

  predicate EnrollmentSigned(req: Request, verifyAt: int)
    requires req.body.EnrollBody?
  {
    && req.body.publicKey.Some?
    && |req.body.publicKey.value| == KEY_SIZE
    && req.deviceId == req.body.uuid
    && req.stamp == FormatInt(req.body.timestamp)
    && Verified(req.body.publicKey.value, ENROLL_PATH, req, verifyAt)
  }

  ghost function EnrollVerdict(db: Db, admitted: bool, req: Request, verifyAt: int, commitAt: int): Option<Refusal> {
    if !admitted then Some(TooManyRequests)
    else if !WellFormedEnrollment(req.body) then Some(BadRequest)
    else if !EnrollmentSigned(req, verifyAt) then Some(BadSignature)
    else
      var id := EnrollTarget(db, req.body.uuid);
      if id in db.auth && db.auth[id] != req.body.publicKey.value then Some(KeyConflict)
      else if (id, req.nonce) in Purged(db.nonces, commitAt) then Some(Replayed)
      else None
  }

  function EnrollEffect(db: Db, id: int, req: Request, commitAt: int): Db
    requires req.body.EnrollBody? && req.body.publicKey.Some?
  {
    var b := req.body;
    db.(devices := if id in db.devices then db.devices
                   else db.devices[id := Device(b.uuid, b.info, Pending, commitAt, commitAt, None, 0, 0)],
        auth := if id in db.auth then db.auth else db.auth[id := b.publicKey.value],
        nonces := Purged(db.nonces, commitAt)[(id, req.nonce) := Stamp(req) + 301])
  }

  // ---------- Heartbeat ----------

  ghost function HeartbeatVerdict(master: string, db: Db, req: Request, verifyAt: int, commitAt: int): Option<Refusal> {
    if !WellFormedHeartbeat(req.body) then Some(BadRequest)
    else
      match FindDevice(db, req.deviceId)
      case None => Some(BadSignature)
      case Some(id) =>
        if id !in db.auth || !Verified(db.auth[id], HEARTBEAT_PATH, req, verifyAt) then Some(BadSignature)
        else if (id, req.nonce) in Purged(db.nonces, commitAt) then Some(Replayed)
        else if req.body.policyVersion > db.settings.version || req.body.passwordVersion > CredVersion(db, id)
        then Some(VersionAhead)
        else if db.devices[id].status != Approved then None
        else if id !in db.creds then Some(NotFound)
        else if Opened(master, db, id).None? then Some(CredentialUnavailable)
        else None
  }

  function Beaten(d: Device, b: Body, now: int): Device
    requires b.HeartbeatBody?
  {
    d.(info := d.info.(rustdeskId := b.info.rustdeskId, hostname := b.info.hostname,
                       rustdeskVersion := b.info.rustdeskVersion, managedVersion := b.info.managedVersion),
       lastSeen := now, appliedPolicy := b.policyVersion, appliedPassword := b.passwordVersion)
  }

  function HeartbeatEffect(db: Db, id: int, req: Request, commitAt: int): Db
    requires id in db.devices && req.body.HeartbeatBody?
  {
    db.(devices := db.devices[id := Beaten(db.devices[id], req.body, commitAt)],
        nonces := Purged(db.nonces, commitAt)[(id, req.nonce) := Stamp(req) + 301])
  }

  // What an accepted heartbeat hands out: a password exactly for approved devices.
  function GrantedAccess(master: string, db: Db, id: int): Option<Access>
    requires id in db.devices
  {
    if db.devices[id].status == Approved && id in db.creds && Opened(master, db, id).Some?
    then Some(Access(true, Opened(master, db, id).value, db.creds[id].version, true))
    else None
  }

  // ---------- Administration ----------

  function ActionVerdict(db: Db, op: Op): Option<Refusal>
    requires op.Approve? || op.Reject? || op.Rotate? || op.Reset?
  {
    if op.id !in db.devices then Some(NotFound)
    else
      match op
      case Approve(id, _, _, _) =>
        if db.devices[id].status == Approved then Some(AlreadyApproved)
        else if id !in db.auth then Some(MustEnrollAgain)
        else None
      case Rotate(id, _, _, _) => if db.devices[id].status != Approved then Some(NotApproved) else None
      case _ => None
  }

  function ActionEffect(master: string, db: Db, op: Op): Db
    requires op.Approve? || op.Reject? || op.Rotate? || op.Reset?
    requires op.id in db.devices
  {
    var d := db.devices[op.id];
    match op
    case Approve(id, seed, nonce, now) =>
      Logged(db.(creds := WithCredential(db.creds, master, id, seed, nonce),
                 devices := db.devices[id := d.(status := Approved, approvedAt := Some(now))]),
             DeviceApproved, Some(id), now)
    case Rotate(id, seed, nonce, now) =>
      Logged(db.(creds := WithCredential(db.creds, master, id, seed, nonce)), PasswordRotated, Some(id), now)
    case Reject(id, now) =>
      Logged(db.(devices := db.devices[id := d.(status := Rejected)]), DeviceRejected, Some(id), now)
    case Reset(id, now) =>
      Logged(db.(auth := db.auth - {id}, nonces := WithoutNonces(db.nonces, id), creds := db.creds - {id},
                 devices := db.devices[id := d.(status := Pending, approvedAt := None,
                                                appliedPolicy := 0, appliedPassword := 0)]),
             IdentityReset, Some(id), now)
  }

  // DELETE FROM devices WHERE id = id, with its cascades.
  function DeleteEffect(db: Db, id: int, now: int): Db {
    Logged(db.(devices := db.devices - {id}, auth := db.auth - {id}, creds := db.creds - {id},
               nonces := WithoutNonces(db.nonces, id)),
           DeviceDeleted, Some(id), now)
  }

  function RevealVerdict(master: string, db: Db, id: int): Option<Refusal> {
    if id !in db.creds || id !in db.devices || db.devices[id].status != Approved then Some(NotFound)
    else if Opened(master, db, id).None? then Some(CredentialUnavailable)
    else None
  }

  // An unchanged write leaves the version alone, and is audited all the same.
  function SettingsEffect(db: Db, servers: Servers, now: int): Db {
    Logged(if db.settings.servers == servers then db else db.(settings := Settings(servers, db.settings.version + 1)),
           SettingsChanged, None, now)
  }

  // ---------- Flags ----------

  // The flag that the administrator sees beside an approved device.
  predicate PasswordSynced(db: Db, id: int)
    requires id in db.devices
  {
    && db.devices[id].status == Approved
    && CredVersion(db, id) > 0
    && db.devices[id].appliedPassword == CredVersion(db, id)
  }

  // ---------- One call ----------

  ghost function Handle(master: string, db: Db, op: Op): (Db, Reply) {
    match op
    case Bootstrap(admitted, now) =>
      (db, if admitted then Published(PolicyOf(db.settings, now, "", None)) else Refused(TooManyRequests))
    case Enroll(admitted, req, v, c) =>
      (match EnrollVerdict(db, admitted, req, v, c)
       case Some(r) => (db, Refused(r))
       case None =>
         var id := EnrollTarget(db, req.body.uuid);
         var after := EnrollEffect(db, id, req, c);
         (after, Enrolled(id, after.devices[id].status)))
    case Heartbeat(req, v, c) =>
      (match HeartbeatVerdict(master, db, req, v, c)
       case Some(r) => (db, Refused(r))
       case None =>
         var id := FindDevice(db, req.deviceId).value;
         (HeartbeatEffect(db, id, req, c),
          Beat(PolicyOf(db.settings, c, StatusText(db.devices[id].status), GrantedAccess(master, db, id)))))
    case Delete(id, now) =>
      if id !in db.devices then (db, Refused(NotFound)) else (DeleteEffect(db, id, now), Done)
    case Reveal(id, now) =>
      (match RevealVerdict(master, db, id)
       case Some(r) => (db, Refused(r))
       case None =>
         (Logged(db, CredentialRevealed, Some(id), now),
          Revealed(Opened(master, db, id).value, db.creds[id].version)))
    case PutSettings(servers, valid, now) =>
      if !valid then (db, Refused(BadSettings)) else (SettingsEffect(db, servers, now), Done)
    case Session(action, now) =>
      if action in {AdminLogin, AdminPasswordChanged} then (Logged(db, action, None, now), Done)
      else (db, Refused(BadRequest))
    case _ =>
      (match ActionVerdict(db, op)
       case Some(r) => (db, Refused(r))
       case None => (ActionEffect(master, db, op), Done))
  }
}
