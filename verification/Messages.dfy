// What agents and the control plane say to each other, and when a signed
// request is believed.
module Messages {
  import opened Text
  import opened Tokens
  import opened Schema

  // ---------- Policies ----------

  datatype RustDesk = RustDesk(idServer: string, relayServer: string, key: string, apiServer: string)

  datatype Access = Access(enabled: bool, password: string, passwordVersion: nat, lockPassword: bool)

  datatype Policy = Policy(protocolVersion: int, serverTime: int, deviceStatus: string, policyVersion: nat,
                           rustdesk: RustDesk, access: Option<Access>)

  // Which server settings the client's own parsers accept: URL syntax and key
  // encoding, fixed for a client build.
  type SettingsCheck = Servers -> bool

  function ServersOf(r: RustDesk): Servers { Servers(r.idServer, r.relayServer, r.key) }

  // What a client accepts.
  predicate Valid(p: Policy, accepts: SettingsCheck) {
    && p.protocolVersion == 1
    && p.policyVersion != 0
    && p.rustdesk.apiServer == ""
    && accepts(ServersOf(p.rustdesk))
    && match p.access {
         case Some(a) =>
           && p.deviceStatus == "approved"
           && a.enabled && a.lockPassword && a.passwordVersion > 0
           && ManagedPassword(a.password)
         case None => p.deviceStatus in ["", "pending", "rejected"]
       }
  }

  predicate PolicyChanged(p: Policy, applied: nat) { p.policyVersion != applied }

  predicate PasswordChanged(p: Policy, applied: nat) { p.access.Some? && p.access.value.passwordVersion != applied }

  // ---------- Requests ----------

  datatype Body =
    | EnrollBody(uuid: string, publicKey: Option<string>, info: Info, timestamp: int)
    | HeartbeatBody(info: Info, policyVersion: int, passwordVersion: int)

  // Everything the signature covers.
  datatype Message = Message(verb: string, path: string, stamp: string, nonce: string, body: Body)

  // An ideal signature (section 5.1 of RFC 8032) names its signer and its message.
  datatype Signature = Signature(signer: string, message: Message)

  datatype Request = Request(query: string, deviceId: string, stamp: string, nonce: string,
                             signature: Option<Signature>, body: Body)

  const VERB := "POST"
  const ENROLL_PATH := "/api/v1/agent/enroll"
  const HEARTBEAT_PATH := "/api/v1/agent/heartbeat"
  const KEY_SIZE := 32

  predicate InWindow(stamp: string, now: int) {
    var t := ParseInt(stamp);
    t.Some? && now - 300 <= t.value <= now + 300
  }

  predicate GoodNonce(nonce: string) {
    16 <= |nonce| <= 128 && '\r' !in nonce && '\n' !in nonce
  }

  predicate ValidSignature(key: string, path: string, req: Request, now: int) {
    && InWindow(req.stamp, now)
    && GoodNonce(req.nonce)
    && |key| == KEY_SIZE
    && req.signature == Some(Signature(key, Message(VERB, path, req.stamp, req.nonce, req.body)))
  }

  // Requests with a query string are never believed.
  predicate Verified(key: string, path: string, req: Request, now: int) {
    req.query == "" && ValidSignature(key, path, req, now)
  }

  function Stamp(req: Request): int {
    match ParseInt(req.stamp)
    case Some(t) => t
    case None => 0
  }

  predicate LowerHex(c: char) { '0' <= c <= '9' || 'a' <= c <= 'f' }

  // Lower-case UUID, version 4.
  predicate ValidUuid(s: string) {
    && |s| == 36
    && (forall i :: 0 <= i < 36 ==> if i in {8, 13, 18, 23} then s[i] == '-' else LowerHex(s[i]))
    && s[14] == '4'
    && s[19] in {'8', '9', 'a', 'b'}
  }

  predicate Bounded(values: seq<string>) { forall i :: 0 <= i < |values| ==> |values[i]| <= 255 }

  predicate WellFormedEnrollment(b: Body) {
    && b.EnrollBody?
    && ValidUuid(b.uuid)
    && b.info.hostname != ""
    && Bounded([b.info.rustdeskId, b.info.hostname, b.info.os, b.info.osVersion, b.info.arch,
                b.info.rustdeskVersion, b.info.managedVersion])
  }

  predicate WellFormedHeartbeat(b: Body) {
    && b.HeartbeatBody?
    && b.policyVersion >= 0 && b.passwordVersion >= 0
    && Bounded([b.info.rustdeskId, b.info.hostname, b.info.rustdeskVersion, b.info.managedVersion])
  }

  // ---------- Replies ----------

  datatype Refusal =
    | TooManyRequests
    | BadRequest
    | BadSignature
    | KeyConflict
    | Replayed
    | VersionAhead
    | CredentialUnavailable
    | NotFound
    | AlreadyApproved
    | MustEnrollAgain
    | NotApproved
    | BadSettings

  datatype Reply =
    | Refused(reason: Refusal)
    | Published(policy: Policy)
    | Enrolled(id: int, status: Status)
    | Beat(policy: Policy)
    | Revealed(password: string, version: nat)
    | Done
}
