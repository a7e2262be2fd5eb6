// The control plane as the server runs it: one database, one connection, and
// handlers that work on a transaction's copy of the tables and commit it or
// leave the database as it was.  The server also keeps, for the record, the
// history that its tables are measured against.
module ControlPlane {
  import opened Text
  import opened Tokens
  import opened Schema
  import opened Messages
  import opened Handlers
  import opened Runs
  import opened Versions

  class ControlServer {
    const master: string
    var db: Db
    ghost var hist: History

    ghost function State(): Server
      reads this
    {
      Server(db, hist)
    }

    // The invariant of every reachable state.
    ghost predicate Valid()
      reads this
    {
      Inv(master, State())
    }

    // The passwords that this device was given since its identity last began.
    ghost function PasswordsOf(id: int): seq<string>
      reads this
    {
      Passwords(hist, id)
    }

    constructor (master: string)
      ensures Valid() && this.master == master && State() == FIRST
    {
      this.master := master;
      db := EMPTY_DB;
      hist := FIRST.hist;
    }

    // What a committed call adds to the history.
    ghost method Remember(before: Server, op: Op, reply: Reply)
      requires (db, reply) == Handle(master, before.db, op) && hist == before.hist && Inv(master, before)
      modifies this`hist
      ensures Valid() && State() == Step(master, before, op)
    {
      KeptByStep(master, before, op);
      hist := Record(hist, before.db, op, reply);
    }

    // SELECT ... FROM devices WHERE device_uuid = uuid
    method Lookup(uuid: string) returns (found: Option<int>)
      requires Constraints(db)
      ensures found == FindDevice(db, uuid)
    {
      if id :| id in db.devices && db.devices[id].uuid == uuid {
        FindDeviceUnique(db, uuid, id);
        found := Some(id);
      } else {
        assert forall id :: !HasUuid(db, uuid, id);
        found := None;
      }
    }

    // Purge expired nonces, then remember this one; fails on a used nonce.
    method Nonce(tx: Db, id: int, req: Request, now: int) returns (next: Db, ok: bool)
      ensures ok <==> (id, req.nonce) !in Purged(tx.nonces, now)
      ensures ok ==> next == tx.(nonces := Purged(tx.nonces, now)[(id, req.nonce) := Stamp(req) + 301])
    {
      next := tx.(nonces := map k | k in tx.nonces && !(tx.nonces[k] < now) :: tx.nonces[k]);
      if (id, req.nonce) in next.nonces {
        return next, false;
      }
      next := next.(nonces := next.nonces[(id, req.nonce) := Stamp(req) + 301]);
      ok := true;
    }

    // The device row and its key, unless already there, and the nonce.
    method Register(start: Db, id: int, req: Request, commitAt: int) returns (tx: Db, ok: bool)
      requires req.body.EnrollBody? && req.body.publicKey.Some?
      ensures ok <==> (id, req.nonce) !in Purged(start.nonces, commitAt)
      ensures ok ==> tx == EnrollEffect(start, id, req, commitAt)
    {
      tx := start;
      if id !in tx.devices {
        var row := Device(req.body.uuid, req.body.info, Pending, commitAt, commitAt, None, 0, 0);
        tx := tx.(devices := tx.devices[id := row]);
      }
      if id !in tx.auth {
        tx := tx.(auth := tx.auth[id := req.body.publicKey.value]);
      }
      tx, ok := Nonce(tx, id, req, commitAt);
    }

    method Enroll(admitted: bool, req: Request, verifyAt: int, commitAt: int) returns (reply: Reply)
      requires Valid()
      modifies this`db, this`hist
      ensures Valid()
      ensures State() == Step(master, old(State()), Op.Enroll(admitted, req, verifyAt, commitAt))
      ensures reply == ReplyTo(master, old(State()), Op.Enroll(admitted, req, verifyAt, commitAt))
      ensures reply.Enrolled? ==>
                && reply.id in db.devices && reply.id in db.auth && req.body.EnrollBody?
                && db.devices[reply.id].uuid == req.body.uuid && Some(db.auth[reply.id]) == req.body.publicKey
                && (reply.id !in old(db).devices ==>
                      db.devices[reply.id].status == Pending && PasswordsOf(reply.id) == [])
    {
      ghost var before := State();
      FrameOf(master, before);
      if !admitted {
        return Refused(TooManyRequests);
      }
      if !WellFormedEnrollment(req.body) {
        return Refused(BadRequest);
      }
      if !EnrollmentSigned(req, verifyAt) {
        return Refused(BadSignature);
      }
      var found := Lookup(req.body.uuid);
      var id := if found.Some? then found.value else NextId(db.devices.Keys);
      if id in db.auth && db.auth[id] != req.body.publicKey.value {
        return Refused(KeyConflict);
      }
      var tx, ok := Register(db, id, req, commitAt);
      if !ok {
        return Refused(Replayed);
      }
      EnrollKeepsConstraints(db, id, req, commitAt);
      db := tx;
      reply := Enrolled(id, db.devices[id].status);
      Remember(before, Op.Enroll(admitted, req, verifyAt, commitAt), reply);
    }

    method Heartbeat(req: Request, verifyAt: int, commitAt: int) returns (reply: Reply)
      requires Valid()
      modifies this`db, this`hist
      ensures Valid()
      ensures State() == Step(master, old(State()), Op.Heartbeat(req, verifyAt, commitAt))
      ensures reply == ReplyTo(master, old(State()), Op.Heartbeat(req, verifyAt, commitAt))
      ensures reply != Refused(CredentialUnavailable) && reply != Refused(NotFound)
      ensures reply.Beat? ==>
                FindDevice(old(db), req.deviceId).Some?
                && TellsCurrent(old(State()), FindDevice(old(db), req.deviceId).value, reply.policy)
    {
      ghost var before := State();
      FrameOf(master, before);
      NeverUnavailable(master, before, Op.Heartbeat(req, verifyAt, commitAt));
      if !WellFormedHeartbeat(req.body) {
        return Refused(BadRequest);
      }
      var tx := db;
      var found := Lookup(req.deviceId);
      if found.None? || found.value !in tx.auth || !Verified(tx.auth[found.value], HEARTBEAT_PATH, req, verifyAt) {
        return Refused(BadSignature);
      }
      var id := found.value;
      var ok;
      tx, ok := Nonce(tx, id, req, commitAt);
      if !ok {
        return Refused(Replayed);
      }
      var d := tx.devices[id];
      var current := if id in tx.creds then tx.creds[id].version else 0;
      if req.body.policyVersion > tx.settings.version || req.body.passwordVersion > current {
        return Refused(VersionAhead);
      }
      var access := None;
      if d.status == Approved {
        if id !in tx.creds {
          return Refused(NotFound);
        }
        var c := tx.creds[id];
        if |c.nonce| != NONCE_SIZE {
          return Refused(CredentialUnavailable);
        }
        var password := Open(master, c.nonce, c.ciphertext, FormatInt(id));
        if password.None? {
          return Refused(CredentialUnavailable);
        }
        access := Some(Access(true, password.value, c.version, true));
      }
      var info := d.info.(rustdeskId := req.body.info.rustdeskId, hostname := req.body.info.hostname,
                          rustdeskVersion := req.body.info.rustdeskVersion,
                          managedVersion := req.body.info.managedVersion);
      db := tx.(devices := tx.devices[id := d.(info := info, lastSeen := commitAt,
                                               appliedPolicy := req.body.policyVersion,
                                               appliedPassword := req.body.passwordVersion)]);
      reply := Beat(PolicyOf(db.settings, commitAt, StatusText(d.status), access));
      Remember(before, Op.Heartbeat(req, verifyAt, commitAt), reply);
      BeatTellsCurrent(master, before, Op.Heartbeat(req, verifyAt, commitAt));
    }

    // INSERT ... ON CONFLICT DO UPDATE SET password_version = password_version + 1
    method SetCredential(tx: Db, id: int, seed: Seed, sealNonce: SealNonce) returns (next: Db)
      ensures next == tx.(creds := WithCredential(tx.creds, master, id, seed, sealNonce))
    {
      var ciphertext := Sealed(master, sealNonce, Encode(seed), FormatInt(id));
      if id in tx.creds {
        next := tx.(creds := tx.creds[id := Credential(tx.creds[id].version + 1, sealNonce, ciphertext)]);
      } else {
        next := tx.(creds := tx.creds[id := Credential(1, sealNonce, ciphertext)]);
      }
    }

    method Action(op: Op) returns (reply: Reply)
      requires Valid()
      requires op.Approve? || op.Reject? || op.Rotate? || op.Reset?
      modifies this`db, this`hist
      ensures Valid()
      ensures State() == Step(master, old(State()), op)
      ensures reply == ReplyTo(master, old(State()), op)
      ensures reply == Done ==>
                && PasswordsOf(op.id) == PasswordsAfter(old(PasswordsOf(op.id)), op)
                && forall id :: id in db.devices && id != op.id ==> PasswordsOf(id) == old(PasswordsOf(id))
    {
      ghost var before := State();
      FrameOf(master, before);
      var tx := db;
      var id := op.id;
      if id !in tx.devices {
        return Refused(NotFound);
      }
      var d := tx.devices[id];
      var action;
      match op {
        case Approve(_, seed, sealNonce, now) =>
          if d.status == Approved {
            return Refused(AlreadyApproved);
          }
          if id !in tx.auth {
            return Refused(MustEnrollAgain);
          }
          tx := SetCredential(tx, id, seed, sealNonce);
          tx := tx.(devices := tx.devices[id := d.(status := Approved, approvedAt := Some(now))]);
          action := DeviceApproved;
        case Reject(_, now) =>
          tx := tx.(devices := tx.devices[id := d.(status := Rejected)]);
          action := DeviceRejected;
        case Rotate(_, seed, sealNonce, now) =>
          if d.status != Approved {
            return Refused(NotApproved);
          }
          tx := SetCredential(tx, id, seed, sealNonce);
          action := PasswordRotated;
        case Reset(_, now) =>
          tx := tx.(auth := tx.auth - {id});
          tx := tx.(nonces := map k | k in tx.nonces && k.0 != id :: tx.nonces[k]);
          tx := tx.(creds := tx.creds - {id});
          tx := tx.(devices := tx.devices[id := d.(status := Pending, approvedAt := None,
                                                   appliedPolicy := 0, appliedPassword := 0)]);
          action := IdentityReset;
      }
      db := tx.(audit := tx.audit + [AuditRow(op.now, action, Some(id))]);
      reply := Done;
      Remember(before, op, reply);
      ActionPasswords(master, before, op);
    }

    method Delete(id: int, now: int) returns (reply: Reply)
      requires Valid()
      modifies this`db, this`hist
      ensures Valid()
      ensures State() == Step(master, old(State()), Op.Delete(id, now))
      ensures reply == ReplyTo(master, old(State()), Op.Delete(id, now))
      ensures reply == Done ==> id !in db.devices && id !in db.auth && id !in db.creds && PasswordsOf(id) == []
    {
      ghost var before := State();
      FrameOf(master, before);
      var tx := db;
      if id !in tx.devices {
        return Refused(NotFound);
      }
      tx := tx.(devices := tx.devices - {id});
      // ON DELETE CASCADE
      tx := tx.(auth := tx.auth - {id}, creds := tx.creds - {id},
                nonces := map k | k in tx.nonces && k.0 != id :: tx.nonces[k]);
      db := tx.(audit := tx.audit + [AuditRow(now, DeviceDeleted, Some(id))]);
      reply := Done;
      Remember(before, Op.Delete(id, now), reply);
    }

    method Reveal(id: int, now: int) returns (reply: Reply)
      requires Valid()
      modifies this`db, this`hist
      ensures Valid()
      ensures State() == Step(master, old(State()), Op.Reveal(id, now))
      ensures reply == ReplyTo(master, old(State()), Op.Reveal(id, now))
      ensures reply != Refused(CredentialUnavailable)
      ensures reply.Revealed? ==>
                PasswordsOf(id) != [] && reply == Revealed(PasswordsOf(id)[|PasswordsOf(id)| - 1], |PasswordsOf(id)|)
    {
      ghost var before := State();
      FrameOf(master, before);
      NeverUnavailable(master, before, Op.Reveal(id, now));
      var tx := db;
      if id !in tx.creds || id !in tx.devices || tx.devices[id].status != Approved {
        return Refused(NotFound);
      }
      var c := tx.creds[id];
      if |c.nonce| != NONCE_SIZE {
        return Refused(CredentialUnavailable);
      }
      var password := Open(master, c.nonce, c.ciphertext, FormatInt(id));
      if password.None? {
        return Refused(CredentialUnavailable);
      }
      db := tx.(audit := tx.audit + [AuditRow(now, CredentialRevealed, Some(id))]);
      reply := Revealed(password.value, c.version);
      Remember(before, Op.Reveal(id, now), reply);
    }

    method PutSettings(servers: Servers, valid: bool, now: int) returns (reply: Reply)
      requires Valid()
      modifies this`db, this`hist
      ensures Valid()
      ensures State() == Step(master, old(State()), Op.PutSettings(servers, valid, now))
      ensures reply == ReplyTo(master, old(State()), Op.PutSettings(servers, valid, now))
      ensures reply == Done ==> db.settings.servers == servers
    {
      ghost var before := State();
      FrameOf(master, before);
      if !valid {
        return Refused(BadSettings);
      }
      var tx := db;
      if tx.settings.servers != servers {
        tx := tx.(settings := Settings(servers, tx.settings.version + 1));
      }
      db := tx.(audit := tx.audit + [AuditRow(now, SettingsChanged, None)]);
      reply := Done;
      Remember(before, Op.PutSettings(servers, valid, now), reply);
    }
  }
}
