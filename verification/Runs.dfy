// Runs of the control plane: any sequence of handler calls by anyone, and the
// history that the tables are measured against.
module Runs {
  import opened Text
  import opened Tokens
  import opened Schema
  import opened Messages
  import opened Handlers

  // ---------- History ----------

  // A request that enrollment or heartbeat accepted, in a device's epoch.
  datatype Acceptance = Acceptance(epoch: nat, stamp: int, nonce: string)

  // A password handed to an agent or revealed to the administrator.
  datatype Grant = Grant(epoch: nat, version: nat, password: string)

  // Server settings handed to an agent.
  datatype Publication = Publication(version: nat, servers: Servers)

  // A credential epoch begins when a device row is created and when its
  // identity is reset; it lists the passwords set since then, oldest first.
  datatype History = History(
    settingsLog: seq<Servers>,
    epochs: seq<seq<string>>,
    epochOf: map<int, nat>,
    accepted: seq<Acceptance>,
    grants: seq<Grant>,
    published: seq<Publication>)

  datatype Server = Server(db: Db, hist: History)

  const FIRST := Server(EMPTY_DB, History([EMPTY_DB.settings.servers], [], map[], [], [], []))

  function EpochOf(h: History, id: int): nat {
    if id in h.epochOf then h.epochOf[id] else |h.epochs|
  }

  // The passwords of the device's current epoch.
  function Passwords(h: History, id: int): seq<string> {
    Epoch(h.epochs, h.epochOf, id)
  }

  function Epoch(epochs: seq<seq<string>>, epochOf: map<int, nat>, id: int): seq<string> {
    if id in epochOf && epochOf[id] < |epochs| then epochs[epochOf[id]] else []
  }

  function NewEpoch(h: History, id: int): History {
    h.(epochs := h.epochs + [[]], epochOf := h.epochOf[id := |h.epochs|])
  }

  function AddPassword(h: History, id: int, password: string): History {
    if id in h.epochOf && h.epochOf[id] < |h.epochs|
    then h.(epochs := h.epochs[h.epochOf[id] := h.epochs[h.epochOf[id]] + [password]])
    else h
  }

  function Accept(h: History, id: int, req: Request): History {
    h.(accepted := h.accepted + [Acceptance(EpochOf(h, id), Stamp(req), req.nonce)])
  }

  function Publish(h: History, p: Policy): History {
    h.(published := h.published + [Publication(p.policyVersion, ServersOf(p.rustdesk))])
  }

  function GrantTo(h: History, id: int, version: nat, password: string): History {
    h.(grants := h.grants + [Grant(EpochOf(h, id), version, password)])
  }

  ghost function RecordBeat(h: History, id: int, req: Request, p: Policy): History {
    var h1 := Publish(Accept(h, id, req), p);
    if p.access.Some? then GrantTo(h1, id, p.access.value.passwordVersion, p.access.value.password) else h1
  }

  ghost function Record(h: History, db: Db, op: Op, reply: Reply): History {
    match reply
    case Refused(_) => h
    case Published(p) => Publish(h, p)
    case Enrolled(id, _) =>
      if op.Enroll? then Accept(if id in db.devices then h else NewEpoch(h, id), id, op.req) else h
    case Beat(p) =>
      if op.Heartbeat? && FindDevice(db, op.req.deviceId).Some?
      then RecordBeat(h, FindDevice(db, op.req.deviceId).value, op.req, p) else h
    case Revealed(password, version) => if op.Reveal? then GrantTo(h, op.id, version, password) else h
    case Done =>
      match op
      case Approve(id, seed, _, _) => AddPassword(h, id, Encode(seed))
      case Rotate(id, seed, _, _) => AddPassword(h, id, Encode(seed))
      case Reset(id, _) => NewEpoch(h, id)
      case Delete(id, _) => h.(epochOf := h.epochOf - {id})
      case PutSettings(servers, _, _) =>
        if servers == db.settings.servers then h else h.(settingsLog := h.settingsLog + [servers])
      case _ => h
  }

  ghost function Step(master: string, s: Server, op: Op): Server {
    var (db, reply) := Handle(master, s.db, op);
    Server(db, Record(s.hist, s.db, op, reply))
  }

  ghost function ReplyTo(master: string, s: Server, op: Op): Reply {
    Handle(master, s.db, op).1
  }

  ghost function Run(master: string, s: Server, ops: seq<Op>): Server
    decreases |ops|
  {
    if ops == [] then s else Step(master, Run(master, s, ops[..|ops| - 1]), ops[|ops| - 1])
  }

  // ---------- The invariant ----------

  // What the tables say of one device: approval needs a key and a credential
  // that opens, a credential needs a key, and nothing reported as applied is
  // ahead of what exists.
  ghost predicate DeviceTables(master: string, db: Db, id: int)
    requires id in db.devices
  {
    var d := db.devices[id];
    && (d.status == Approved ==> id in db.creds && d.approvedAt.Some?)
    && (d.status == Pending ==> d.approvedAt.None?)
    && (id in db.creds ==>
          && id in db.auth
          && db.creds[id].version >= 1
          && Opened(master, db, id).Some?
          && ManagedPassword(Opened(master, db, id).value))
    && 0 <= d.appliedPolicy <= db.settings.version
    && 0 <= d.appliedPassword <= CredVersion(db, id)
    && (id !in db.auth ==> d.appliedPolicy == 0 && d.appliedPassword == 0)
  }

  ghost predicate TableInv(master: string, db: Db) {
    && Constraints(db)
    && db.settings.version >= 1
    && forall id :: id in db.devices ==> DeviceTables(master, db, id)
  }

  // How the tables of one device relate to its epoch: the version counts the
  // passwords, and the sealed password is the last of them.
  ghost predicate DeviceHistory(master: string, s: Server, id: int)
    requires id in s.db.devices
  {
    && CredVersion(s.db, id) == |Passwords(s.hist, id)|
    && (id in s.db.creds && Passwords(s.hist, id) != [] ==>
          Opened(master, s.db, id) == Some(Passwords(s.hist, id)[|Passwords(s.hist, id)| - 1]))
  }

  ghost predicate GrantOk(h: History, g: Grant) {
    g.epoch < |h.epochs| && 1 <= g.version <= |h.epochs[g.epoch]| && g.password == h.epochs[g.epoch][g.version - 1]
  }

  ghost predicate PublicationOk(h: History, p: Publication) {
    1 <= p.version <= |h.settingsLog| && p.servers == h.settingsLog[p.version - 1]
  }

  ghost predicate LogsInv(h: History) {
    && (forall i :: i in h.epochOf ==> h.epochOf[i] < |h.epochs|)
    && (forall i, j :: i in h.epochOf && j in h.epochOf && h.epochOf[i] == h.epochOf[j] ==> i == j)
    && (forall i :: 0 <= i < |h.accepted| ==> h.accepted[i].epoch < |h.epochs|)
    && (forall i :: 0 <= i < |h.grants| ==> GrantOk(h, h.grants[i]))
    && (forall i :: 0 <= i < |h.published| ==> PublicationOk(h, h.published[i]))
  }

  ghost predicate HistoryInv(master: string, s: Server) {
    && s.hist.epochOf.Keys == s.db.devices.Keys
    && (forall id :: id in s.db.devices ==> DeviceHistory(master, s, id))
    && |s.hist.settingsLog| == s.db.settings.version >= 1
    && s.hist.settingsLog[|s.hist.settingsLog| - 1] == s.db.settings.servers
    && LogsInv(s.hist)
  }

  ghost predicate Inv(master: string, s: Server) {
    TableInv(master, s.db) && HistoryInv(master, s)
  }

  // ---------- History entries keep the logs consistent ----------

  lemma LogsNewEpoch(h: History, id: int)
    requires LogsInv(h)
    ensures LogsInv(NewEpoch(h, id))
    ensures Passwords(NewEpoch(h, id), id) == []
    ensures SamePasswords(h, NewEpoch(h, id), {id})
  {
  }

  lemma LogsAddPassword(h: History, id: int, password: string)
    requires LogsInv(h) && id in h.epochOf
    ensures LogsInv(AddPassword(h, id, password))
    ensures Passwords(AddPassword(h, id, password), id) == Passwords(h, id) + [password]
    ensures SamePasswords(h, AddPassword(h, id, password), {id})
  {
  }

  lemma LogsAccept(h: History, id: int, req: Request)
    requires LogsInv(h) && id in h.epochOf
    ensures LogsInv(Accept(h, id, req))
  {
  }

  lemma LogsPublish(h: History, p: Policy)
    requires LogsInv(h) && PublicationOk(h, Publication(p.policyVersion, ServersOf(p.rustdesk)))
    ensures LogsInv(Publish(h, p))
  {
  }

  lemma LogsGrant(h: History, id: int, version: nat, password: string)
    requires LogsInv(h) && GrantOk(h, Grant(EpochOf(h, id), version, password))
    ensures LogsInv(GrantTo(h, id, version, password))
  {
  }

  lemma LogsSettings(h: History, servers: Servers)
    requires LogsInv(h)
    ensures LogsInv(h.(settingsLog := h.settingsLog + [servers]))
  {
  }

  lemma LogsForget(h: History, id: int)
    requires LogsInv(h)
    ensures LogsInv(h.(epochOf := h.epochOf - {id}))
  {
  }

  // ---------- Every handler keeps the invariant ----------

  // Nothing that the invariant says of device `i` has changed.
  ghost predicate Untouched(s: Server, s': Server, i: int) {
    && i in s.db.devices && i in s'.db.devices && s.db.devices[i] == s'.db.devices[i]
    && (i in s.db.auth <==> i in s'.db.auth)
    && (i in s.db.creds <==> i in s'.db.creds)
    && (i in s.db.creds ==> s.db.creds[i] == s'.db.creds[i])
    && s.db.settings.version <= s'.db.settings.version
    && Passwords(s.hist, i) == Passwords(s'.hist, i)
  }

  lemma FrameOf(master: string, s: Server)
    requires Inv(master, s)
    ensures FrameInv(s)
  {
  }

  lemma UntouchedKept(master: string, s: Server, s': Server, i: int)
    requires Untouched(s, s', i)
    requires DeviceTables(master, s.db, i) && DeviceHistory(master, s, i)
    ensures DeviceTables(master, s'.db, i) && DeviceHistory(master, s', i)
  {
  }

  ghost predicate OthersUntouched(s: Server, s': Server, touched: set<int>) {
    forall i :: i in s'.db.devices && i !in touched ==> Untouched(s, s', i)
  }

  ghost predicate DeviceInv(master: string, s: Server, i: int) {
    i in s.db.devices && DeviceTables(master, s.db, i) && DeviceHistory(master, s, i)
  }

  // The parts of the invariant that do not speak of single devices.
  ghost predicate FrameInv(s: Server) {
    && Constraints(s.db) && LogsInv(s.hist)
    && s.hist.epochOf.Keys == s.db.devices.Keys
    && |s.hist.settingsLog| == s.db.settings.version >= 1
    && s.hist.settingsLog[|s.hist.settingsLog| - 1] == s.db.settings.servers
  }

  // The invariant follows from its frame and the devices touched.
  lemma KeptByTouching(master: string, s: Server, s': Server, touched: set<int>)
    requires Inv(master, s) && FrameInv(s')
    requires forall i :: i in touched && i in s'.db.devices ==> DeviceInv(master, s', i)
    requires OthersUntouched(s, s', touched)
    ensures Inv(master, s')
  {
  }

  // The tables and the epochs of every device not touched are as they were.
  lemma OthersAsBefore(s: Server, s': Server, touched: set<int>)
    requires s'.db.devices.Keys <= s.db.devices.Keys + touched
    requires s'.db.devices - touched == s.db.devices - touched && s'.db.creds - touched == s.db.creds - touched
    requires s'.db.auth.Keys - touched == s.db.auth.Keys - touched
    requires s.db.settings.version <= s'.db.settings.version
    requires SamePasswords(s.hist, s'.hist, touched)
    requires s.hist.epochOf.Keys == s.db.devices.Keys
    ensures OthersUntouched(s, s', touched)
  {
    forall i | i in s'.db.devices && i !in touched ensures Untouched(s, s', i) {
      assert i in s'.db.devices - touched && i in s.db.devices - touched;
      assert i in s.db.auth.Keys - touched <==> i in s'.db.auth.Keys - touched;
      assert i in s.db.creds - touched <==> i in s'.db.creds - touched;
    }
  }

  ghost predicate SamePasswords(h: History, h': History, touched: set<int>) {
    forall i :: i in h.epochOf && i !in touched ==> Passwords(h', i) == Passwords(h, i)
  }

  lemma EnrollKeepsConstraints(db: Db, id: int, req: Request, commitAt: int)
    requires Constraints(db) && req.body.EnrollBody? && req.body.publicKey.Some?
    requires id == EnrollTarget(db, req.body.uuid)
    ensures Constraints(EnrollEffect(db, id, req, commitAt))
  {
    forall i | i in db.devices && id !in db.devices ensures db.devices[i].uuid != req.body.uuid {
      assert !HasUuid(db, req.body.uuid, i);
    }
  }

  function EnrolledHistory(s: Server, id: int, req: Request): History {
    Accept(if id in s.db.devices then s.hist else NewEpoch(s.hist, id), id, req)
  }

  lemma EnrollStep(master: string, s: Server, op: Op)
    requires op.Enroll? && EnrollVerdict(s.db, op.admitted, op.req, op.verifyAt, op.commitAt).None?
    ensures op.req.body.EnrollBody? && op.req.body.publicKey.Some?
    ensures var id := EnrollTarget(s.db, op.req.body.uuid);
            && Step(master, s, op)
               == Server(EnrollEffect(s.db, id, op.req, op.commitAt), EnrolledHistory(s, id, op.req))
            && InWindow(op.req.stamp, op.verifyAt)
            && (id, op.req.nonce) !in Purged(s.db.nonces, op.commitAt)
            && op.req.signature.Some? && op.req.signature.value.signer == op.req.body.publicKey.value
  {
  }

  lemma KnownEnrollDevice(master: string, s: Server, id: int, req: Request, commitAt: int)
    requires DeviceInv(master, s, id) && req.body.EnrollBody? && req.body.publicKey.Some?
    ensures DeviceInv(master, Server(EnrollEffect(s.db, id, req, commitAt), EnrolledHistory(s, id, req)), id)
  {
    var s' := Server(EnrollEffect(s.db, id, req, commitAt), EnrolledHistory(s, id, req));
    assert Passwords(s'.hist, id) == Passwords(s.hist, id);
    if id in s.db.auth {
      UntouchedKept(master, s, s', id);
    }
  }

  lemma NewEnrollDevice(master: string, s: Server, id: int, req: Request, commitAt: int)
    requires req.body.EnrollBody? && req.body.publicKey.Some?
    requires id !in s.db.devices && id !in s.db.creds
    ensures DeviceInv(master, Server(EnrollEffect(s.db, id, req, commitAt), EnrolledHistory(s, id, req)), id)
  {
  }

  lemma KeptByKnownEnroll(master: string, s: Server, id: int, req: Request, commitAt: int)
    requires Inv(master, s) && req.body.EnrollBody? && req.body.publicKey.Some? && id in s.db.devices
    requires Constraints(EnrollEffect(s.db, id, req, commitAt))
    ensures Inv(master, Server(EnrollEffect(s.db, id, req, commitAt), EnrolledHistory(s, id, req)))
  {
    var s' := Server(EnrollEffect(s.db, id, req, commitAt), EnrolledHistory(s, id, req));
    LogsAccept(s.hist, id, req);
    OthersAsBefore(s, s', {id});
    KnownEnrollDevice(master, s, id, req, commitAt);
    KeptByTouching(master, s, s', {id});
  }

  lemma NewEnrollOthers(s: Server, id: int, req: Request, commitAt: int)
    requires req.body.EnrollBody? && req.body.publicKey.Some? && id !in s.db.devices
    requires s.hist.epochOf.Keys == s.db.devices.Keys && SamePasswords(s.hist, NewEpoch(s.hist, id), {id})
    ensures OthersUntouched(s, Server(EnrollEffect(s.db, id, req, commitAt), EnrolledHistory(s, id, req)), {id})
  {
  }

  lemma NewEnrollFrame(s: Server, id: int, req: Request, commitAt: int)
    requires FrameInv(s) && req.body.EnrollBody? && req.body.publicKey.Some? && id !in s.db.devices
    requires Constraints(EnrollEffect(s.db, id, req, commitAt)) && LogsInv(EnrolledHistory(s, id, req))
    ensures FrameInv(Server(EnrollEffect(s.db, id, req, commitAt), EnrolledHistory(s, id, req)))
  {
  }

  lemma KeptByNewEnroll(master: string, s: Server, id: int, req: Request, commitAt: int)
    requires Inv(master, s) && req.body.EnrollBody? && req.body.publicKey.Some? && id !in s.db.devices
    requires Constraints(EnrollEffect(s.db, id, req, commitAt))
    ensures Inv(master, Server(EnrollEffect(s.db, id, req, commitAt), EnrolledHistory(s, id, req)))
  {
    var s' := Server(EnrollEffect(s.db, id, req, commitAt), EnrolledHistory(s, id, req));
    LogsNewEpoch(s.hist, id);
    LogsAccept(NewEpoch(s.hist, id), id, req);
    NewEnrollOthers(s, id, req, commitAt);
    NewEnrollDevice(master, s, id, req, commitAt);
    FrameOf(master, s);
    NewEnrollFrame(s, id, req, commitAt);
    KeptByTouching(master, s, s', {id});
  }

  // A new device begins an epoch; a known one stays as it is, in its own.
  ghost predicate EnrolledInto(s: Server, s': Server, id: int) {
    && id in s'.db.devices && id in s'.db.auth && id in s'.hist.epochOf
    && (id in s.db.auth ==> s'.db.auth[id] == s.db.auth[id])
    && (if id in s.db.devices
        then s'.db.devices[id] == s.db.devices[id] && EpochOf(s'.hist, id) == EpochOf(s.hist, id)
             && Passwords(s'.hist, id) == Passwords(s.hist, id)
        else s'.hist.epochOf[id] == |s.hist.epochs| && Passwords(s'.hist, id) == []
             && s'.db.devices[id].status == Pending
             && s'.db.devices[id].appliedPolicy == 0 && s'.db.devices[id].appliedPassword == 0)
  }

  lemma EnrolledSo(s: Server, id: int, req: Request, commitAt: int)
    requires FrameInv(s) && req.body.EnrollBody? && req.body.publicKey.Some?
    ensures EnrolledInto(s, Server(EnrollEffect(s.db, id, req, commitAt), EnrolledHistory(s, id, req)), id)
  {
  }

  lemma KeptByEnroll(master: string, s: Server, op: Op)
    requires Inv(master, s) && op.Enroll?
    ensures Inv(master, Step(master, s, op))
    ensures ReplyTo(master, s, op).Enrolled? ==> EnrolledInto(s, Step(master, s, op), ReplyTo(master, s, op).id)
    ensures !ReplyTo(master, s, op).Enrolled? ==> Step(master, s, op) == s
  {
    FrameOf(master, s);
    if EnrollVerdict(s.db, op.admitted, op.req, op.verifyAt, op.commitAt).None? {
      EnrollStep(master, s, op);
      var id := EnrollTarget(s.db, op.req.body.uuid);
      EnrollKeepsConstraints(s.db, id, op.req, op.commitAt);
      EnrolledSo(s, id, op.req, op.commitAt);
      if id in s.db.devices {
        KeptByKnownEnroll(master, s, id, op.req, op.commitAt);
      } else {
        KeptByNewEnroll(master, s, id, op.req, op.commitAt);
      }
    }
  }

  lemma HeartbeatStep(master: string, s: Server, op: Op)
    requires op.Heartbeat? && HeartbeatVerdict(master, s.db, op.req, op.verifyAt, op.commitAt).None?
    ensures FindDevice(s.db, op.req.deviceId).Some? && op.req.body.HeartbeatBody?
    ensures var id := FindDevice(s.db, op.req.deviceId).value;
            && id in s.db.auth && op.req.signature.Some? && op.req.signature.value.signer == s.db.auth[id]
            && InWindow(op.req.stamp, op.verifyAt)
            && (id, op.req.nonce) !in Purged(s.db.nonces, op.commitAt)
            && 0 <= op.req.body.policyVersion <= s.db.settings.version
            && 0 <= op.req.body.passwordVersion <= CredVersion(s.db, id)
            && ReplyTo(master, s, op).Beat?
            && ReplyTo(master, s, op).policy
               == PolicyOf(s.db.settings, op.commitAt, StatusText(s.db.devices[id].status),
                           GrantedAccess(master, s.db, id))
            && Step(master, s, op)
               == Server(HeartbeatEffect(s.db, id, op.req, op.commitAt),
                         RecordBeat(s.hist, id, op.req, ReplyTo(master, s, op).policy))
  {
  }

  // What is granted is the last password of the epoch.
  lemma LastIsGrant(h: History, id: int, version: nat, password: string)
    requires id in h.epochOf && h.epochOf[id] < |h.epochs|
    requires version == |Passwords(h, id)| >= 1 && password == Passwords(h, id)[version - 1]
    ensures GrantOk(h, Grant(EpochOf(h, id), version, password))
  {
  }

  // The sealed password of a device, as the history knows it.
  lemma OpenedIsLast(master: string, s: Server, id: int, version: nat, password: string)
    requires DeviceInv(master, s, id) && id in s.db.creds
    requires s.db.creds[id].version == version && Opened(master, s.db, id) == Some(password)
    ensures version == |Passwords(s.hist, id)| >= 1 && password == Passwords(s.hist, id)[version - 1]
  {
    hide FormatInt;
    var passwords := Passwords(s.hist, id);
    assert CredVersion(s.db, id) == version == |passwords| && passwords != [];
    assert Some(password) == Some(passwords[version - 1]);
  }

  lemma GrantedIsLast(master: string, s: Server, id: int, g: Access)
    requires DeviceInv(master, s, id) && GrantedAccess(master, s.db, id) == Some(g)
    ensures g.passwordVersion == |Passwords(s.hist, id)| >= 1
    ensures g.password == Passwords(s.hist, id)[g.passwordVersion - 1]
  {
    OpenedIsLast(master, s, id, g.passwordVersion, g.password);
  }

  lemma RecordBeatKeeps(h: History, id: int, req: Request, p: Policy)
    ensures var h' := RecordBeat(h, id, req, p);
            h'.epochs == h.epochs && h'.epochOf == h.epochOf && h'.settingsLog == h.settingsLog
  {
  }

  lemma BeatLogs(h: History, id: int, req: Request, p: Policy)
    requires LogsInv(h) && id in h.epochOf
    requires PublicationOk(h, Publication(p.policyVersion, ServersOf(p.rustdesk)))
    requires p.access.Some? ==>
               GrantOk(h, Grant(EpochOf(h, id), p.access.value.passwordVersion, p.access.value.password))
    ensures LogsInv(RecordBeat(h, id, req, p))
  {
    var h1 := Accept(h, id, req);
    LogsAccept(h, id, req);
    LogsPublish(h1, p);
    if p.access.Some? {
      LogsGrant(Publish(h1, p), id, p.access.value.passwordVersion, p.access.value.password);
    }
  }

  lemma HeartbeatLogs(master: string, s: Server, id: int, req: Request, p: Policy)
    requires DeviceInv(master, s, id) && FrameInv(s)
    requires p.policyVersion == s.db.settings.version && ServersOf(p.rustdesk) == s.db.settings.servers
    requires p.access == GrantedAccess(master, s.db, id)
    ensures LogsInv(RecordBeat(s.hist, id, req, p))
  {
    if p.access.Some? {
      GrantedIsLast(master, s, id, p.access.value);
    }
    GrantedLogs(s.hist, id, req, p);
  }

  lemma GrantedLogs(h: History, id: int, req: Request, p: Policy)
    requires LogsInv(h) && id in h.epochOf
    requires PublicationOk(h, Publication(p.policyVersion, ServersOf(p.rustdesk)))
    requires p.access.Some? ==>
               && p.access.value.passwordVersion == |Passwords(h, id)| >= 1
               && p.access.value.password == Passwords(h, id)[p.access.value.passwordVersion - 1]
    ensures LogsInv(RecordBeat(h, id, req, p))
  {
    if p.access.Some? {
      LastIsGrant(h, id, p.access.value.passwordVersion, p.access.value.password);
    }
    BeatLogs(h, id, req, p);
  }

  // A device whose row changed in what it reports alone.
  lemma ReportingDevice(master: string, s: Server, s': Server, id: int)
    requires DeviceInv(master, s, id) && id in s.db.auth && id in s'.db.devices
    requires s'.db.devices[id].status == s.db.devices[id].status
    requires s'.db.devices[id].approvedAt == s.db.devices[id].approvedAt
    requires s'.db.auth == s.db.auth && s'.db.creds == s.db.creds && s'.db.settings == s.db.settings
    requires 0 <= s'.db.devices[id].appliedPolicy <= s.db.settings.version
    requires 0 <= s'.db.devices[id].appliedPassword <= CredVersion(s.db, id)
    requires Passwords(s'.hist, id) == Passwords(s.hist, id)
    ensures DeviceInv(master, s', id)
  {
    hide FormatInt;
    assert id in s.db.creds ==> Opened(master, s'.db, id) == Opened(master, s.db, id);
  }

  lemma BeatenDevice(master: string, s: Server, id: int, req: Request, commitAt: int, p: Policy)
    requires DeviceInv(master, s, id) && id in s.db.auth && req.body.HeartbeatBody?
    requires 0 <= req.body.policyVersion <= s.db.settings.version
    requires 0 <= req.body.passwordVersion <= CredVersion(s.db, id)
    ensures DeviceInv(master, Server(HeartbeatEffect(s.db, id, req, commitAt), RecordBeat(s.hist, id, req, p)), id)
  {
    RecordBeatKeeps(s.hist, id, req, p);
    ReportingDevice(master, s, Server(HeartbeatEffect(s.db, id, req, commitAt), RecordBeat(s.hist, id, req, p)), id);
  }

  lemma KeptByBeat(master: string, s: Server, id: int, req: Request, commitAt: int, h: History)
    requires Inv(master, s) && id in s.db.auth && req.body.HeartbeatBody?
    requires LogsInv(h) && h == s.hist.(accepted := h.accepted, published := h.published, grants := h.grants)
    requires DeviceInv(master, Server(HeartbeatEffect(s.db, id, req, commitAt), h), id)
    ensures Inv(master, Server(HeartbeatEffect(s.db, id, req, commitAt), h))
  {
    var s' := Server(HeartbeatEffect(s.db, id, req, commitAt), h);
    OthersAsBefore(s, s', {id});
    KeptByTouching(master, s, s', {id});
  }

  // What is recorded is within the current versions, and what is granted is the
  // last password of the epoch.
  ghost predicate BeatenInto(s: Server, s': Server, id: int, p: Policy) {
    && id in s.db.devices && id in s'.db.devices && s'.db.devices[id].status == s.db.devices[id].status
    && 0 <= s'.db.devices[id].appliedPolicy <= p.policyVersion == s.db.settings.version
    && 0 <= s'.db.devices[id].appliedPassword <= |Passwords(s.hist, id)| == |Passwords(s'.hist, id)|
    && (p.access.Some? ==>
          && p.access.value.passwordVersion == |Passwords(s.hist, id)| >= 1
          && p.access.value.password == Passwords(s.hist, id)[p.access.value.passwordVersion - 1])
  }

  lemma KeptByHeartbeat(master: string, s: Server, op: Op)
    requires Inv(master, s) && op.Heartbeat?
    ensures Inv(master, Step(master, s, op))
    ensures ReplyTo(master, s, op).Beat? ==>
              && FindDevice(s.db, op.req.deviceId).Some?
              && BeatenInto(s, Step(master, s, op), FindDevice(s.db, op.req.deviceId).value,
                            ReplyTo(master, s, op).policy)
    ensures !ReplyTo(master, s, op).Beat? ==> Step(master, s, op) == s
  {
    if HeartbeatVerdict(master, s.db, op.req, op.verifyAt, op.commitAt).None? {
      HeartbeatStep(master, s, op);
      var id := FindDevice(s.db, op.req.deviceId).value;
      var p := ReplyTo(master, s, op).policy;
      assert DeviceTables(master, s.db, id) && DeviceHistory(master, s, id);
      FrameOf(master, s);
      HeartbeatLogs(master, s, id, op.req, p);
      BeatenDevice(master, s, id, op.req, op.commitAt, p);
      KeptByBeat(master, s, id, op.req, op.commitAt, RecordBeat(s.hist, id, op.req, p));
      RecordBeatKeeps(s.hist, id, op.req, p);
      if p.access.Some? {
        GrantedIsLast(master, s, id, p.access.value);
      }
    }
  }

  function ActionHistory(h: History, op: Op): History
    requires op.Approve? || op.Reject? || op.Rotate? || op.Reset?
  {
    match op
    case Approve(id, seed, _, _) => AddPassword(h, id, Encode(seed))
    case Rotate(id, seed, _, _) => AddPassword(h, id, Encode(seed))
    case Reset(id, _) => NewEpoch(h, id)
    case _ => h
  }

  lemma ActionStep(master: string, s: Server, op: Op)
    requires op.Approve? || op.Reject? || op.Rotate? || op.Reset?
    requires ActionVerdict(s.db, op).None?
    ensures Step(master, s, op) == Server(ActionEffect(master, s.db, op), ActionHistory(s.hist, op))
  {
  }

  lemma NewPasswordDevice(master: string, s: Server, op: Op)
    requires (op.Approve? || op.Rotate?) && ActionVerdict(s.db, op).None?
    requires DeviceInv(master, s, op.id)
    requires Passwords(ActionHistory(s.hist, op), op.id) == Passwords(s.hist, op.id) + [Encode(op.seed)]
    ensures DeviceInv(master, Server(ActionEffect(master, s.db, op), ActionHistory(s.hist, op)), op.id)
  {
    TokenIsManagedPassword(op.seed);
  }

  lemma ActionFrame(master: string, s: Server, op: Op)
    requires op.Approve? || op.Reject? || op.Rotate? || op.Reset?
    requires FrameInv(s) && ActionVerdict(s.db, op).None? && LogsInv(ActionHistory(s.hist, op))
    ensures FrameInv(Server(ActionEffect(master, s.db, op), ActionHistory(s.hist, op)))
  {
  }

  lemma ActionOthers(master: string, s: Server, op: Op)
    requires op.Approve? || op.Reject? || op.Rotate? || op.Reset?
    requires ActionVerdict(s.db, op).None? && s.hist.epochOf.Keys == s.db.devices.Keys
    requires SamePasswords(s.hist, ActionHistory(s.hist, op), {op.id})
    ensures OthersUntouched(s, Server(ActionEffect(master, s.db, op), ActionHistory(s.hist, op)), {op.id})
  {
    OthersAsBefore(s, Server(ActionEffect(master, s.db, op), ActionHistory(s.hist, op)), {op.id});
  }

  lemma RejectedDevice(master: string, s: Server, op: Op)
    requires op.Reject? && op.id in s.db.devices && DeviceInv(master, s, op.id)
    ensures DeviceInv(master, Server(ActionEffect(master, s.db, op), s.hist), op.id)
  {
    var db' := ActionEffect(master, s.db, op);
    assert op.id in s.db.creds ==> Opened(master, db', op.id) == Opened(master, s.db, op.id);
  }

  lemma ResetDevice(master: string, s: Server, op: Op, h: History)
    requires op.Reset? && op.id in s.db.devices && DeviceInv(master, s, op.id) && Passwords(h, op.id) == []
    ensures DeviceInv(master, Server(ActionEffect(master, s.db, op), h), op.id)
  {
  }

  lemma KeptByNewPassword(master: string, s: Server, op: Op)
    requires Inv(master, s) && (op.Approve? || op.Rotate?) && ActionVerdict(s.db, op).None?
    ensures Inv(master, Server(ActionEffect(master, s.db, op), ActionHistory(s.hist, op)))
  {
    var s' := Server(ActionEffect(master, s.db, op), ActionHistory(s.hist, op));
    LogsAddPassword(s.hist, op.id, Encode(op.seed));
    ActionFrame(master, s, op);
    assert DeviceTables(master, s.db, op.id) && DeviceHistory(master, s, op.id);
    NewPasswordDevice(master, s, op);
    ActionOthers(master, s, op);
    KeptByTouching(master, s, s', {op.id});
  }

  lemma KeptByStatus(master: string, s: Server, op: Op)
    requires Inv(master, s) && (op.Reject? || op.Reset?) && ActionVerdict(s.db, op).None?
    ensures Inv(master, Server(ActionEffect(master, s.db, op), ActionHistory(s.hist, op)))
  {
    var s' := Server(ActionEffect(master, s.db, op), ActionHistory(s.hist, op));
    if op.Reset? {
      LogsNewEpoch(s.hist, op.id);
    }
    ActionFrame(master, s, op);
    assert DeviceTables(master, s.db, op.id) && DeviceHistory(master, s, op.id);
    if op.Reset? {
      ResetDevice(master, s, op, NewEpoch(s.hist, op.id));
    } else {
      RejectedDevice(master, s, op);
    }
    ActionOthers(master, s, op);
    KeptByTouching(master, s, s', {op.id});
  }

  lemma KeptByAction(master: string, s: Server, op: Op)
    requires Inv(master, s) && (op.Approve? || op.Reject? || op.Rotate? || op.Reset?)
    ensures Inv(master, Step(master, s, op))
  {
    if ActionVerdict(s.db, op).None? {
      ActionStep(master, s, op);
      if op.Approve? || op.Rotate? {
        KeptByNewPassword(master, s, op);
      } else {
        KeptByStatus(master, s, op);
      }
    }
  }

  lemma KeptByDelete(master: string, s: Server, id: int, now: int)
    requires Inv(master, s)
    ensures Inv(master, Server(DeleteEffect(s.db, id, now), s.hist.(epochOf := s.hist.epochOf - {id})))
  {
    var s' := Server(DeleteEffect(s.db, id, now), s.hist.(epochOf := s.hist.epochOf - {id}));
    LogsForget(s.hist, id);
    OthersAsBefore(s, s', {id});
    KeptByTouching(master, s, s', {id});
  }

  // Appending to the audit log and to histories other than the epochs.
  lemma KeptByLogging(master: string, s: Server, rows: seq<AuditRow>, grants: seq<Grant>, published: seq<Publication>)
    requires Inv(master, s) && LogsInv(s.hist.(grants := grants, published := published))
    ensures Inv(master, Server(s.db.(audit := rows), s.hist.(grants := grants, published := published)))
  {
    var s' := Server(s.db.(audit := rows), s.hist.(grants := grants, published := published));
    OthersAsBefore(s, s', {});
    KeptByTouching(master, s, s', {});
  }

  lemma RevealLogs(master: string, s: Server, id: int, version: nat, password: string)
    requires DeviceInv(master, s, id) && LogsInv(s.hist) && id in s.hist.epochOf
    requires id in s.db.creds && s.db.creds[id].version == version && Opened(master, s.db, id) == Some(password)
    ensures LogsInv(GrantTo(s.hist, id, version, password))
  {
    OpenedIsLast(master, s, id, version, password);
    LastGranted(s.hist, id, version, password);
  }

  lemma LastGranted(h: History, id: int, version: nat, password: string)
    requires LogsInv(h) && id in h.epochOf
    requires version == |Passwords(h, id)| >= 1 && password == Passwords(h, id)[version - 1]
    ensures LogsInv(GrantTo(h, id, version, password))
  {
    LogsGrant(h, id, version, password);
  }

  // The handlers that only append to the audit log and to the histories.
  lemma LoggingStep(master: string, s: Server, op: Op)
    requires op.Bootstrap? || op.Reveal? || op.Session? || (op.PutSettings? && op.servers == s.db.settings.servers)
    ensures var s' := Step(master, s, op);
            s' == Server(s.db.(audit := s'.db.audit), s.hist.(grants := s'.hist.grants, published := s'.hist.published))
    ensures op.Session? || op.PutSettings? ==> Step(master, s, op).hist == s.hist
    ensures op.Reveal? && RevealVerdict(master, s.db, op.id).Some? ==> Step(master, s, op) == s
    ensures op.Reveal? && RevealVerdict(master, s.db, op.id).None? ==>
              Step(master, s, op).hist
              == GrantTo(s.hist, op.id, s.db.creds[op.id].version, Opened(master, s.db, op.id).value)
    ensures op.Bootstrap? ==>
              Step(master, s, op).hist
              == if op.admitted then Publish(s.hist, PolicyOf(s.db.settings, op.now, "", None)) else s.hist
  {
  }

  lemma KeptByLoggingStep(master: string, s: Server, op: Op)
    requires Inv(master, s)
    requires op.Bootstrap? || op.Reveal? || op.Session? || (op.PutSettings? && op.servers == s.db.settings.servers)
    ensures Inv(master, Step(master, s, op))
  {
    LoggingStep(master, s, op);
    if op.Reveal? && RevealVerdict(master, s.db, op.id).None? {
      assert DeviceTables(master, s.db, op.id) && DeviceHistory(master, s, op.id);
      FrameOf(master, s);
      RevealLogs(master, s, op.id, s.db.creds[op.id].version, Opened(master, s.db, op.id).value);
    } else if op.Bootstrap? && op.admitted {
      LogsPublish(s.hist, PolicyOf(s.db.settings, op.now, "", None));
    }
    var s' := Step(master, s, op);
    KeptByLogging(master, s, s'.db.audit, s'.hist.grants, s'.hist.published);
  }

  lemma KeptByNewSettings(master: string, s: Server, servers: Servers, rows: seq<AuditRow>)
    requires Inv(master, s)
    ensures Inv(master, Server(s.db.(settings := Settings(servers, s.db.settings.version + 1), audit := rows),
                               s.hist.(settingsLog := s.hist.settingsLog + [servers])))
  {
    var s' := Server(s.db.(settings := Settings(servers, s.db.settings.version + 1), audit := rows),
                     s.hist.(settingsLog := s.hist.settingsLog + [servers]));
    LogsSettings(s.hist, servers);
    OthersAsBefore(s, s', {});
    KeptByTouching(master, s, s', {});
  }

  lemma SettingsStep(master: string, s: Server, op: Op)
    requires op.PutSettings? && op.servers != s.db.settings.servers
    ensures !op.valid ==> Step(master, s, op) == s
    ensures op.valid ==>
              Step(master, s, op)
              == Server(s.db.(settings := Settings(op.servers, s.db.settings.version + 1),
                              audit := Step(master, s, op).db.audit),
                        s.hist.(settingsLog := s.hist.settingsLog + [op.servers]))
  {
  }

  lemma DeleteStep(master: string, s: Server, op: Op)
    requires op.Delete?
    ensures Step(master, s, op)
         == if op.id in s.db.devices
            then Server(DeleteEffect(s.db, op.id, op.now), s.hist.(epochOf := s.hist.epochOf - {op.id}))
            else s
  {
  }

  lemma KeptByStep(master: string, s: Server, op: Op)
    requires Inv(master, s)
    ensures Inv(master, Step(master, s, op))
  {
    if op.Enroll? {
      KeptByEnroll(master, s, op);
    } else if op.Heartbeat? {
      KeptByHeartbeat(master, s, op);
    } else if op.Approve? || op.Reject? || op.Rotate? || op.Reset? {
      KeptByAction(master, s, op);
    } else if op.Delete? {
      DeleteStep(master, s, op);
      KeptByDelete(master, s, op.id, op.now);
    } else if op.PutSettings? && op.servers != s.db.settings.servers {
      SettingsStep(master, s, op);
      KeptByNewSettings(master, s, op.servers, Step(master, s, op).db.audit);
    } else {
      KeptByLoggingStep(master, s, op);
    }
  }

  // The table invariant holds in every reachable state.
  lemma {:induction false} KeptByRun(master: string, s: Server, ops: seq<Op>)
    requires Inv(master, s)
    ensures Inv(master, Run(master, s, ops))
    decreases |ops|
  {
    if ops == [] {
    } else {
      KeptByRun(master, s, ops[..|ops| - 1]);
      KeptByStep(master, Run(master, s, ops[..|ops| - 1]), ops[|ops| - 1]);
    }
  }

  lemma Reachable(master: string, ops: seq<Op>)
    ensures Inv(master, Run(master, FIRST, ops))
  {
    KeptByRun(master, FIRST, ops);
  }

  // ---------- Tables alone ----------

  // Passwords that a credential epoch could have seen, the stored one last.
  function PastPasswords(master: string, db: Db, id: int): seq<string> {
    if id in db.creds && db.creds[id].version >= 1 && Opened(master, db, id).Some?
    then seq(db.creds[id].version - 1, i => "") + [Opened(master, db, id).value]
    else []
  }

  // One epoch for each device.
  lemma EpochsFor(master: string, db: Db) returns (epochs: seq<seq<string>>, epochOf: map<int, nat>)
    ensures epochOf.Keys == db.devices.Keys
    ensures forall i :: i in epochOf ==> epochOf[i] < |epochs| && epochs[epochOf[i]] == PastPasswords(master, db, i)
    ensures forall i, j :: i in epochOf && j in epochOf && epochOf[i] == epochOf[j] ==> i == j
  {
    epochs, epochOf := [], map[];
    var todo := db.devices.Keys;
    while todo != {}
      invariant todo <= db.devices.Keys && epochOf.Keys == db.devices.Keys - todo
      invariant forall i :: i in epochOf ==> epochOf[i] < |epochs| && epochs[epochOf[i]] == PastPasswords(master, db, i)
      invariant forall i, j :: i in epochOf && j in epochOf && epochOf[i] == epochOf[j] ==> i == j
      decreases todo
    {
      HasMember(todo);
      var id :| id in todo;
      epochOf := epochOf[id := |epochs|];
      epochs := epochs + [PastPasswords(master, db, id)];
      todo := todo - {id};
    }
  }

  // Any tables that meet the invariant, a restored backup's too, have a history.
  lemma TablesHaveHistory(master: string, db: Db) returns (h: History)
    requires TableInv(master, db)
    ensures Inv(master, Server(db, h))
  {
    var epochs, epochOf := EpochsFor(master, db);
    var settings := seq(db.settings.version - 1, i => db.settings.servers) + [db.settings.servers];
    h := History(settings, epochs, epochOf, [], [], []);
    forall id | id in db.devices ensures DeviceHistory(master, Server(db, h), id) {
      assert DeviceTables(master, db, id);
    }
  }

  // So the tables keep their invariant on their own.
  lemma TablesKept(master: string, db: Db, op: Op)
    requires TableInv(master, db)
    ensures TableInv(master, Handle(master, db, op).0)
  {
    var h := TablesHaveHistory(master, db);
    KeptByStep(master, Server(db, h), op);
  }
}
