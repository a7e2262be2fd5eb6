// The control plane's database: one map per table, keyed by the table's primary
// key, and the constraints that the schema itself enforces.
module Schema {
  import opened Text

  // ---------- Authenticated encryption, as an ideal function ----------

  // A sealed box remembers what it was sealed with; opening it needs the same
  // key, nonce and label (section 2 of RFC 5116).
  datatype Sealed = Sealed(master: string, nonce: string, plaintext: string, aad: string)

  const NONCE_SIZE := 12

  type SealNonce = s: string | |s| == NONCE_SIZE witness seq(12, i => '0')

  function Open(master: string, nonce: string, box: Sealed, aad: string): Option<string> {
    if box.master == master && box.nonce == nonce && box.aad == aad then Some(box.plaintext) else None
  }

  // ---------- Rows ----------

  datatype Status = Pending | Approved | Rejected

  function StatusText(s: Status): string {
    match s
    case Pending => "pending"
    case Approved => "approved"
    case Rejected => "rejected"
  }

  datatype Servers = Servers(idServer: string, relayServer: string, key: string)

  datatype Settings = Settings(servers: Servers, version: nat)

  datatype Info = Info(rustdeskId: string, hostname: string, os: string, osVersion: string,
                       arch: string, rustdeskVersion: string, managedVersion: string)

  datatype Device = Device(uuid: string, info: Info, status: Status, firstSeen: int, lastSeen: int,
                           approvedAt: Option<int>, appliedPolicy: int, appliedPassword: int)

  datatype Credential = Credential(version: nat, nonce: string, ciphertext: Sealed)

  datatype AuditAction =
    | DeviceApproved
    | DeviceRejected
    | PasswordRotated
    | IdentityReset
    | DeviceDeleted
    | CredentialRevealed
    | SettingsChanged
    | AdminLogin
    | AdminPasswordChanged

  datatype AuditRow = AuditRow(timestamp: int, action: AuditAction, device: Option<int>)

  datatype Db = Db(
    settings: Settings,
    devices: map<int, Device>,
    auth: map<int, string>,
    creds: map<int, Credential>,
    nonces: map<(int, string), int>,
    audit: seq<AuditRow>)

  // The database right after the first migration.
  const EMPTY_DB := Db(Settings(Servers("", "", ""), 1), map[], map[], map[], map[], [])

  // ---------- Schema constraints ----------

  // UNIQUE on device_uuid, and every REFERENCES clause of the child tables.
  ghost predicate Constraints(db: Db) {
    && (forall i, j :: i in db.devices && j in db.devices && db.devices[i].uuid == db.devices[j].uuid ==> i == j)
    && db.auth.Keys <= db.devices.Keys
    && db.creds.Keys <= db.devices.Keys
    && (forall k :: k in db.nonces ==> k.0 in db.devices)
  }

  // ---------- Queries and statements ----------

  ghost predicate HasUuid(db: Db, uuid: string, id: int) {
    id in db.devices && db.devices[id].uuid == uuid
  }

  // The row with this UUID; unique under Constraints.
  ghost function FindDevice(db: Db, uuid: string): (r: Option<int>)
    ensures r.Some? ==> HasUuid(db, uuid, r.value)
    ensures r.None? ==> forall id :: !HasUuid(db, uuid, id)
  {
    if id :| HasUuid(db, uuid, id) then Some(id) else None
  }

  lemma FindDeviceUnique(db: Db, uuid: string, id: int)
    requires Constraints(db) && HasUuid(db, uuid, id)
    ensures FindDevice(db, uuid) == Some(id)
  {
  }

  // A primary key without AUTOINCREMENT: one more than the largest in use, so
  // the id of a deleted last row is used again.
  function NextId(ids: set<int>): (id: int)
    ensures id !in ids && forall i :: i in ids ==> i < id
    ensures if ids == {} then id == 1 else id - 1 in ids
  {
    if |ids| == 0 then 1
    else
      MaximumExists(ids);
      var m :| m in ids && forall i :: i in ids ==> i <= m;
      m + 1
  }

  lemma HasMember(ids: set<int>)
    requires |ids| > 0
    ensures exists x :: x in ids
  {
    if forall x :: x !in ids {
      assert false;
    }
  }

  lemma {:induction false} MaximumExists(ids: set<int>)
    requires |ids| > 0
    ensures exists m :: m in ids && forall i :: i in ids ==> i <= m
    decreases |ids|
  {
    HasMember(ids);
    var x :| x in ids;
    if ids == {x} {
    } else {
      var rest := ids - {x};
      MaximumExists(rest);
      var m :| m in rest && forall i :: i in rest ==> i <= m;
      var top := if m < x then x else m;
      assert top in ids && forall i :: i in ids ==> i <= top by {
        forall i | i in ids ensures i <= top {
          assert i == x || i in rest;
        }
      }
    }
  }

  // DELETE FROM agent_nonces WHERE expires_at < now
  function Purged(nonces: map<(int, string), int>, now: int): map<(int, string), int> {
    map k | k in nonces && !(nonces[k] < now) :: nonces[k]
  }

  // DELETE FROM agent_nonces WHERE device_id = id
  function WithoutNonces(nonces: map<(int, string), int>, id: int): map<(int, string), int> {
    map k | k in nonces && k.0 != id :: nonces[k]
  }

  function CredVersion(db: Db, id: int): nat {
    if id in db.creds then db.creds[id].version else 0
  }
}
