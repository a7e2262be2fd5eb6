# rustdesk-control: the management protocol, modelled and proved

rustdesk-control manages RustDesk clients.  A control plane in Go keeps tables
of devices, keys, sealed credentials, used nonces, settings, sessions and audit
rows; every handler is one transaction over a single connection.  On each
managed machine an agent in Rust asks for settings, enrolls, and reports by
heartbeat what it has applied; it drives a host whose calls can fail partway,
and drops its acknowledgements on any failure.  On that machine the root's
configuration is authoritative and a user's replica follows it.

This project models both sides and proves what the system is for:

- a device shown as synchronized really has the current password installed, in
  every run of the control plane and its agents together (`Truth.dfy`), down to
  the root's configuration store with users writing to it (`Machines.dfy`), and
  exactly when this survives resets under arbitrary resending (`Astray.dfy`);
- left alone by administrators, both sides agree after two heartbeat answers,
  whatever everyone else does in between (`Convergence.dfy`), and there is a run
  from nothing to that state for every agent (`FirstContact.dfy`);
- the tables keep their invariant in every run (`Runs.dfy`), version numbers
  only grow and identify content (`Versions.dfy`), the audit log alone tells the
  standing of every device (`AuditReplay.dfy`), and no signed request is
  accepted twice exactly when purging lags verification by at most one second
  (`ReplayGuard.dfy`);
- only the management adapter decides what the root manages
  (`RootAuthority.dfy`), and merging it into the replica is never by itself a
  reason to send the replica back (`ConfigSync.dfy`);
- smaller parts on their own terms: the limiter, sessions, search, the proxy
  walk, the signed bytes, the derived views.

## How it is organized

| file | part of the system |
|---|---|
| `Text.dfy`, `Tokens.dfy` | splitting, decimal numbers, URL-safe tokens |
| `Schema.dfy`, `Messages.dfy` | tables and their constraints; policies, requests, signatures, replies |
| `Handlers.dfy` | each handler as a verdict and an effect |
| `ControlPlane.dfy` | the handlers step by step over a mutable database, proved equal to `Handlers` |
| `Runs.dfy` | any sequence of calls by anyone, with a recorded history; the invariant |
| `Versions.dfy`, `AuditReplay.dfy`, `ReplayGuard.dfy`, `Views.dfy` | what holds of every run |
| `AgentLoop.dfy` | the agent's loop as a mutable object, proved equal to a specification |
| `Management.dfy`, `Truth.dfy`, `Convergence.dfy`, `FirstContact.dfy` | the joint machine: control plane, agents, messages in flight |
| `Resets.dfy`, `Astray.dfy` | requests sent again across resets: what keeps the tables true, and what does not |
| `ManagedConfig.dfy`, `RootAuthority.dfy`, `ConfigSync.dfy` | the root's store and the user's replica |
| `ManagedHost.dfy`, `Machines.dfy` | the root's store as the agent's host, and the joint machine on such stores |
| `RateLimiter.dfy`, `Sessions.dfy`, `Search.dfy`, `Proxy.dfy`, `Canonical.dfy` | the smaller cores |

Where the source changes state, a class does too, and each of its methods
equates the new state with a function of the old one; the theorems are about
those functions over all inputs and all runs.

A run carries a history beside the tables: every settings value, every password
of every credential epoch, every accepted request, every password and every
settings value handed out.  A credential epoch of a device begins when its row
is created and when its identity is reset, and ends at the next reset or at
deletion.  The history is what the tables are measured against; no handler
reads it.

## Assumptions

- Ed25519 (section 5.1 of RFC 8032) is ideal: a signature names its signer and
  its message.  What is signed are bytes: by `Canonical.BytesIdentifyMessages`
  two messages that pass the server's checks share their bytes only if their
  bodies are a collision of the digest, and the model leaves such collisions
  out.  AEAD (section 2 of RFC 5116) is ideal: a box opens with the
  key, nonce and label that sealed it and with no others.  SHA-256 enters as
  any function from bodies to 32 bytes.
- Random bytes, clock readings, the limiter's verdict, metadata and the outcome
  of host calls are parameters of a call; lemmas quantify over all of them.
- Anyone may send any request at any time, except that nobody but the agent
  itself signs with its key.  Whatever an agent has sent may be sent again, or
  for the first time, by anyone, in any order, any number of times and at any
  time.  Most results about the joint machine ask that this stays within the
  epoch (`Management.WithinEpochs`): a heartbeat sent again speaks of no
  password or of its own epoch's, and an enrollment sent again finds its device
  registered or its agent without a password; requests that are refused do not
  matter.  `Astray.TruthfulIffLongEnough` says which delays bring that about.
  One agent runs per key (the lock at `managed-client/core/storage.rs:61`).
- A failed `apply_servers` leaves a written prefix of the options (proved of the
  root's store in `ManagedHost.dfy`); a failed `apply_password` leaves the old or
  the new password.
- Which addresses and keys the client's own parsers accept is the parameter
  `accepts`, fixed for a client build; the server's check of new settings is the
  parameter `valid` of `PutSettings`.  The two are different parsers and are
  not assumed to agree.
- Versions, ids and times are unbounded integers; the textual timestamp is
  parsed within 64 bits, as in the source.

## Findings

- The replay table and the signature window fit with exactly one second to
  spare.  The row of an accepted request lives until its timestamp plus 301, the
  signature until plus 300; a transaction whose purge reads a clock two seconds
  later than its signature check can accept the same request again
  (`ReplayGuard.AcceptedTwice`).  The two readings are separate calls in the
  source (`internal/control/agent.go:87` and `:90`).
- A reset deletes a device's nonces and restarts its versions at 1, while the
  signatures of earlier requests are still believed.  An enrollment sent again
  within its window registers the key of an agent that may still hold version 1
  of the old password, and a report from before the reset can be taken for one
  from after it; the device then shows as synchronized with the old password
  (`Astray.EarlyReset`, `Astray.EarlyApproval`).  Waiting out the window before
  resetting, after the last enrollment, and before approving, after the last
  such report, is exactly what prevents both (`Astray.TruthfulIffLongEnough`).
- The limiter counts fixed windows that open with a request, so a sliding
  window of k minutes can admit up to one less than k + 1 times the maximum, and
  no more (`RateLimiter.SlidingWindowBound`, `RateLimiter.BoundReached`).

## Model

| member | source | states |
|---|---|---|
| `Truth.TruthfulSync` | managed-client/core/agent.rs:46-79 | In every run of control plane and agents, a device flagged as synchronized has exactly the current credential's password installed and locked on the host that holds its key, and one that reports the current policy version has the current servers installed, across rotations, rejections, resets, deletions, restarts, lost and delayed messages, requests sent again by anyone at any time and in any order within their epoch, calls that fail partway and users' changes on the machine |
| `Astray.TruthfulIffLongEnough` | internal/control/admin.go:187-198 | If anything an agent ever sent may be sent again across resets too, the flag is truthful in all runs if and only if every reset or deletion comes more than 300 seconds plus the lag between check and commit after the last enrollment the device's agent sent, and every approval as long after its last report of a password from an earlier epoch; stated for delays up to the 64-bit maximum of the clock |
| `Astray.PatientIsTruthful` | internal/control/crypto.go:73-76 | With both delays longer than that the flag is truthful, for delays of any length |
| `Astray.EarlyReset` | internal/control/agent.go:136-151 | If resets may come earlier, a run in which an enrollment sent again after the reset registers a node that still holds version 1 of the old password, which the heartbeat then reports as version 1 of the new one |
| `Astray.EarlyApproval` | internal/control/agent.go:209-217 | If approvals may come earlier, a run in which a refused report from before the reset is sent again after the approval and accepted |
| `Resets.PatientIsWithin` | internal/control/agent.go:89-97 | With both delays long enough, everything sent again is refused or stays within its epoch |
| `Truth.HeldVersionIsCurrentEpoch` | managed-client/core/agent.rs:53-57 | A nonzero password version held by an agent was obtained in the current credential epoch of whatever device is registered under its key, and is not ahead of that device's credential |
| `Truth.NeverAhead` | internal/control/agent.go:214-217 | No agent is ever refused for reporting a version ahead of the server's |
| `Truth.EventKept` | internal/control/agent.go:173-247 | Every event (a handler call by anyone, a message sent, processed, lost or received with any outcome, a restart, a change by users of the machine) keeps the joint invariant of control plane and agents |
| `Truth.ReachableSystem` | managed-client/core/agent.rs:10-63 | Every reachable state of control plane and agents meets the joint invariant |
| `Management.NodeRunsTheLoop` | managed-client/core/agent.rs:19-62 | Message by message, a node of the joint machine goes through exactly one round of the agent's loop, whatever it is answered |
| `Management.StableStep` | internal/control/admin.go:187-198 | A call not signed with a key leaves the epoch and the reports of every device still registered under that key unchanged |
| `Management.ServerOfRun` | internal/control/server.go:51 | The control plane's part in a run of the joint machine is the run of the calls it handled, one transaction after the other |
| `Convergence.Converges` | managed-client/core/agent.rs:19-51 | From every reachable state with an approved device registered under the key of an agent between two rounds and settings the client accepts, any run in which nobody touches the settings or that device, the agent's own calls succeed, and everyone else does as they please at any point in between (other agents, other devices, refused and resent requests, users of the machine) has both applied versions current and the current servers and password installed once the agent has received two heartbeat answers or taken ten steps, and from then on |
| `Convergence.TwoHeartbeatsSettle` | internal/control/agent.go:203-246 | The same from any tables that meet the table invariant, a restored backup included, for an agent whose counters are not ahead: the first answer makes the agent current, the second is recorded; the device, its key, its credential and the settings are untouched; an agent that did not hold the current version has the current password installed, one that held it under lock has kept its own |
| `Convergence.OneHeartbeatSyncsIffHeld` | managed-client/core/agent.rs:39-43 | Until the second heartbeat is processed the device shows what the first one reported, and is flagged as synchronized if and only if the agent already held the current password version |
| `Convergence.TenStepsAreEnough` | managed-client/core/agent.rs:19-62 | In such a run the agent always has a step to take, and ten of them bring two heartbeat answers, whatever comes in between |
| `Convergence.QuietStep` | internal/control/agent.go:194-201 | A call that is not signed with the key, does not change the settings and does not administer the device leaves the settings, the device's row, key and credential alone and adds no nonce of its |
| `Convergence.CalmRunKept` | managed-client/core/agent.rs:19-51 | Such a run keeps the terms of the device, and the agent's steps, what is left of its round and the answers it received add up |
| `Convergence.GivingUpSettles` | managed-client/core/agent.rs:53-60 | From any reachable state an agent that gives up what it waits for is between two rounds, in a state that meets the joint invariant, with the control plane untouched |
| `FirstContact.EndToEnd` | managed-client/core/agent.rs:20-45 | For any agent key, any settings the client accepts and any password drawn there is a run from an empty control plane, through settings, enrollment, approval and heartbeats, that ends with both sides in step and that password installed |
| `FirstContact.CalmRunExists` | managed-client/core/agent.rs:38-44 | From every ready state, for any list of distinct nonces that the device has not used and any 64-bit readings of the agent's clock, there is a calm run of as many steps of the agent's own |
| `FirstContact.AgreementIsReachable` | managed-client/core/agent.rs:38-44 | And so from every ready state there is a run of ten steps that ends with both applied versions current and the current servers installed, and with the current password if the agent did not hold its version |
| `Machines.TruthfulStores` | managed-client/core/mod.rs:80-109 | With the root's configuration as host, and users' Options, SyncConfig and password messages arriving at any time, a device flagged as synchronized has the current credential's password stored and locked, and one that reports the current policy version has the current servers stored under management |
| `Machines.StoresConverge` | managed-client/core/mod.rs:19-48 | Any calm run on stores in which the agent receives two answers or takes ten steps ends with both applied versions current and with the current servers and password in the root's configuration, managed and locked, whatever users send to it meanwhile |
| `Machines.SmoothOnStores` | managed-client/core/mod.rs:27-34 | On a store that refuses nothing, applying servers succeeds |
| `Machines.RunsOnStores` | managed-client/core/mod.rs:19-60 | Every run on real stores is a run of the joint machine |
| `ManagedHost.ServersSeen` | managed-client/core/mod.rs:19-35 | Applying servers to the root, five options with read-back and the switch, is one of the outcomes the agent's loop reckons with: all written and managed, or a written prefix and an error |
| `ManagedHost.PasswordSeen` | managed-client/core/mod.rs:36-48 | Storing the password and setting the three options is what the agent's loop reckons with: stored and locked, or an error with the old or the new password |
| `ManagedHost.LocalSeen` | managed-client/patches/rustdesk.patch:207-220 | What users send changes servers and switches only while the root is not managed, and the password only while it is not managed and locked |
| `Runs.Reachable` | migrations/001_initial.sql:3-9 | Every reachable database meets the table invariant (approval needs a key and a credential of version at least 1 that opens, a credential needs a key, applied versions never exceed current ones, child rows refer to existing devices) and agrees with the recorded history |
| `Runs.KeptByStep` | internal/control/admin.go:138-214 | Every handler call, accepted or refused, keeps the table invariant and its agreement with the history |
| `Runs.EnrollKeepsConstraints` | internal/control/agent.go:125-147 | Enrollment keeps device UUIDs unique and child rows attached |
| `Runs.KeptByEnroll` | internal/control/agent.go:98-162 | Enrollment keeps the invariant: a new device begins an epoch, pending and with nothing reported, a known one keeps its row, epoch, passwords and key, and a refused enrollment changes nothing |
| `Runs.KeptByHeartbeat` | internal/control/agent.go:173-247 | A heartbeat keeps the invariant: what it records is within the current versions, what it grants is the last password of the epoch with its version, and a refused heartbeat changes nothing |
| `Runs.KeptByAction` | internal/control/admin.go:156-214 | Approve, reject, rotate and reset keep the invariant |
| `Runs.KeptByDelete` | internal/control/admin.go:215-249 | Deletion with its cascades keeps the invariant |
| `Runs.TablesKept` | internal/control/admin.go:138-214 | Every handler call keeps the table invariant of any tables that meet it, reachable or not |
| `Runs.TablesHaveHistory` | migrations/001_initial.sql:3-9 | Any tables that meet the table invariant, a restored backup's too, agree with some history |
| `Schema.FindDeviceUnique` | internal/control/agent.go:127 | Under the uniqueness constraint a UUID finds exactly its row |
| `Schema.NextId` | migrations/001_initial.sql:5 | A new row's id is one more than the largest in use, and 1 in an empty table, so the id of a deleted last row is used again |
| `Versions.VersionsOnlyGrow` | internal/control/admin.go:129-137 | Between any two moments of a run the policy version only grows; within one credential epoch the password version only grows through every reject and approval, and the device keeps its key |
| `Versions.VersionsIdentifyContent` | internal/control/agent.go:37-41 | Any two policies handed out in a run with equal policy versions carry equal settings; any two passwords handed out in one epoch with equal versions are equal |
| `Versions.RevealMatchesGrant` | internal/control/admin.go:262-285 | For an approved device of a reachable state, reveal and heartbeat hand out the same password, the one written last in the epoch, and the same version, the number of passwords written in it |
| `Versions.CredentialsAlwaysAvailable` | internal/control/agent.go:221-234 | Under one master key no reachable call is refused because a credential is unavailable, and no heartbeat because one is missing |
| `Versions.RepliesAreClientValid` | managed-client/core/policy.rs:31-66 | From any tables that meet the invariant, if the stored settings are acceptable to the client then so is every bootstrap and heartbeat response |
| `Versions.RunEvolves` | internal/control/admin.go:187-197 | Along a run settings and passwords are only appended, an epoch once left is never entered again, and keys stay for the whole epoch |
| `Tokens.TokenIsManagedPassword` | internal/control/crypto.go:20-26 | 24 random bytes become 32 characters that the client accepts as a password |
| `Tokens.EncodeInjective` | internal/control/crypto.go:20-26 | Different random bytes become different tokens |
| `AuditReplay.AuditTellsStanding` | internal/control/server.go:317-320 | In every reachable state, replaying the audit rows of any id gives exactly its status and password version (approvals plus rotations since the last reset or deletion), a clean slate if there is no such device, also when ids are used again; the policy version is at most 1 plus the number of settings rows |
| `AuditReplay.StepAudited` | internal/control/admin.go:203-208 | Every handler call keeps log and standing in step |
| `ReplayGuard.AtMostOnceIffOneSecond` | internal/control/agent.go:89-97 | In all runs no (timestamp, nonce) pair is accepted twice in one epoch of a device, if and only if the clock reading used to purge is at most one second after the one used to verify |
| `ReplayGuard.RunGuarded` | internal/control/crypto.go:73-76 | An accepted pair stays in the nonce table of its device until it is too old to be accepted, whatever other requests purge |
| `ReplayGuard.AcceptedTwice` | internal/control/agent.go:90-95 | A run with two seconds between the readings that accepts one enrollment twice |
| `ReplayGuard.ResendingIsIdle` | internal/control/agent.go:89-97 | In a run whose clock readings are within that second, a request whose timestamp and nonce were accepted in the device's current epoch changes nothing when it is sent again |
| `ControlPlane.ControlServer.Enroll` | internal/control/agent.go:98-162 | Enrollment keeps the invariant of reachable states; tables, history and reply are those of the specification, refused requests change nothing, and an enrolled device has the UUID and the key of the request and, if new, is pending without a password |
| `ControlPlane.ControlServer.Heartbeat` | internal/control/agent.go:173-247 | A heartbeat keeps the invariant, with checks in the order of the source, and never fails for want of a credential; its answer tells the current settings, and the last password of the epoch exactly to approved devices |
| `ControlPlane.ControlServer.Nonce` | internal/control/agent.go:89-97 | Expired nonces are purged, a fresh one is remembered until its timestamp plus 301, a used one fails |
| `ControlPlane.ControlServer.Lookup` | internal/control/agent.go:127 | Finds the row with the UUID, or that there is none |
| `ControlPlane.ControlServer.Action` | internal/control/admin.go:138-214 | Approve, reject, rotate and reset keep the invariant; approval and rotation add the drawn password to the device's epoch, reset begins a new one, and other devices keep theirs |
| `ControlPlane.ControlServer.SetCredential` | internal/control/admin.go:129-137 | A first credential has version 1, a later one the next version, sealed for this device |
| `ControlPlane.ControlServer.Delete` | internal/control/admin.go:215-249 | Deletion keeps the invariant, removes the device and all its child rows, and is audited |
| `ControlPlane.ControlServer.Reveal` | internal/control/admin.go:250-286 | Reveals to the administrator the last password of the epoch and its version, for approved devices only, and never finds it unavailable |
| `ControlPlane.ControlServer.PutSettings` | internal/control/admin.go:330-358 | A valid write puts the settings in force and keeps the invariant; the version grows only if something changed, and every valid write is audited |
| `AgentLoop.Agent.ApplyPolicy` | managed-client/core/agent.rs:65-79 | The counters, the host and the result after a policy, for every outcome of the host's calls |
| `AgentLoop.Agent.ApplyServers` | managed-client/core/mod.rs:19-35 | As the agent's loop sees its host: the three options that name servers are written in order, a failing call leaves a written prefix, and a complete one switches management on |
| `AgentLoop.Agent.Attempt` | managed-client/core/agent.rs:20-45 | One trip around the loop: bootstrap and enrollment if needed, then a heartbeat and its policy |
| `AgentLoop.Agent.Fail` | managed-client/core/agent.rs:53-60 | Any failure drops the acknowledgements and the enrollment, and backs off through the retry table |
| `AgentLoop.Agent.Go` | managed-client/core/agent.rs:19-62 | The loop over any number of rounds equals the specification folded over them |
| `AgentLoop.AckedMeansInstalled` | managed-client/core/agent.rs:65-79 | A policy applied without error leaves its servers on the managed host, acknowledges its version, and acknowledges a new password version only with that password installed and locked |
| `AgentLoop.AcksComeFromReplies` | managed-client/core/agent.rs:46-60 | In any history of rounds the counters are clear while not enrolled, and an acknowledged password version was delivered with the password that is still installed |
| `Views.ViewsAgree` | internal/control/admin.go:39-45 | In every reachable state and at one clock reading, passwords pending plus devices flagged as synchronized are the approved devices; online and offline counts, flags and filtered lists agree |
| `Views.OnlineViews` | internal/control/admin.go:73-80 | The two online filters partition the devices and match flags and dashboard |
| `Views.PasswordViews` | internal/control/admin.go:120-128 | Approved devices are either pending or synchronized, never both, when no report is ahead of its credential |
| `RateLimiter.SlidingWindowBound` | internal/control/server.go:131-152 | For each scope and host and in every run, a closed window of k minutes admits at most (k+1)*max - 1 requests, and at most max at one instant |
| `RateLimiter.BoundReached` | internal/control/server.go:137-151 | For each scope and host and every k from 1 to 60,000,000,000, a run in which a closed window of k minutes admits exactly (k+1)*max - 1 requests, so the bound is tight |
| `RateLimiter.InstantBoundReached` | internal/control/server.go:137-151 | At one instant max requests are admitted, so the bound is tight there too |
| `RateLimiter.AtMostCapacity` | internal/control/server.go:143-146 | The limiter never holds more than 10000 buckets |
| `RateLimiter.KeysIdentifyPairs` | internal/control/server.go:141 | Distinct pairs of scope and host never share a bucket |
| `RateLimiter.Limiter.Rate` | internal/control/server.go:131-152 | Sweeping, opening and counting: the new buckets and the verdict equal the specification |
| `Sessions.AuthenticatedIffLoggedIn` | internal/control/server.go:209 | At every time a token authenticates if and only if its login committed less than 24 hours ago and neither a logout of it nor a password change committed since; purging is unobservable |
| `Sessions.SessionTable.Authenticate` | internal/control/server.go:201-212 | A token authenticates when its row has not expired |
| `Sessions.SessionTable.Begin` | internal/control/server.go:248-256 | Login purges expired rows and adds a row for 24 hours |
| `Sessions.SessionTable.End` | internal/control/server.go:265-270 | Logout of an authenticated token removes its row |
| `Sessions.SessionTable.EndAll` | internal/control/server.go:286-310 | A password change by an authenticated token removes every row |
| `Search.SearchIsSubstring` | internal/control/admin.go:64-68 | The escaped pattern matches exactly the texts in which the typed text occurs, up to ASCII case, for every typed text |
| `Search.FoundByIdOrHostname` | internal/control/admin.go:64-68 | The search condition lists exactly the devices whose RustDesk id or hostname contains the typed text |
| `Proxy.ClientIP` | internal/control/server.go:331-360 | The loop equals the recursive definition: first untrusted address from the right, else the last good hop |
| `Proxy.SuffixDetermined` | internal/control/server.go:348-359 | Prepending any text and a comma to the header changes nothing unless every hop already there is a trusted address, and then the walk continues in the text |
| `Proxy.WalkFindsRightmost` | internal/control/server.go:349-358 | An untrusted answer is the rightmost untrusted address, with only trusted addresses to its right |
| `Canonical.SameBytes` | managed-client/core/auth.rs:5-15 | Go and Rust build the same bytes from the same fields |
| `Canonical.SplitsBack` | internal/control/crypto.go:69-72 | The bytes split back into exactly the signed fields if and only if no field contains a line feed |
| `Canonical.BytesIdentifyFields` | internal/control/crypto.go:69-80 | For messages that pass the checks before verification and for any digest, the signed bytes are equal if and only if the four fields and the digests of the bodies are |
| `Canonical.BytesIdentifyMessages` | internal/control/crypto.go:69-80 | Two different checked messages have equal signed bytes if and only if they differ in the body alone and their bodies are a collision of the digest |
| `Canonical.HexInjective` | internal/control/crypto.go:71 | Equal hexadecimal digests of one length are equal digests |
| `Text.ParseFormat` | internal/control/agent.go:115 | A 64-bit timestamp written in decimal parses back to itself |
| `Text.ParsedHasNoLineBreak` | internal/control/crypto.go:74 | A timestamp that parses contains no line break |
| `Text.SplitJoin` | internal/control/crypto.go:71 | Separator-free fields joined and split again are the same fields |
| `Text.SplitConcat` | internal/control/server.go:348 | Splitting at a separator distributes over concatenation with it |
| `ManagedConfig.RootStore.PreserveOptions` | managed-client/core/mod.rs:80-103 | Under management the ten managed options of an incoming message are replaced by those in force, the others left alone |
| `ManagedConfig.RootStore.ReceiveOptions` | managed-client/patches/rustdesk.patch:207-209 | An Options message stores the preserved options |
| `ManagedConfig.RootStore.ReceiveConfig` | managed-client/patches/rustdesk.patch:214-220 | A SyncConfig message stores the preserved options, and under the lock the present password and salt |
| `ManagedConfig.RootStore.ApplyServers` | managed-client/core/mod.rs:19-35 | Server options are written in order until one is rejected; management is switched on at the end |
| `ManagedConfig.RootStore.ApplyPassword` | managed-client/core/mod.rs:36-48 | Password and salt are stored, then verification, approval and lock options are set |
| `ManagedConfig.RootStore.Connected` | managed-client/core/mod.rs:49-59 | Only the contact option changes |
| `RootAuthority.OnlyTheAdapterDecides` | managed-client/core/mod.rs:80-109 | In every interleaving of incoming messages and adapter calls at a managed root, management stays on, and the managed options read as if only the adapter's calls had happened; from a locked state so do the stored password and salt |
| `RootAuthority.OtherOptionsFollow` | managed-client/patches/rustdesk.patch:207-220 | Every other option is exactly what the last incoming message said |
| `RootAuthority.IncomingKeepsManaged` | managed-client/patches/hbb_common.patch:52-61 | An incoming message changes no managed option at a managed root, and no password or salt at a locked one |
| `ConfigSync.UserStore.MergeServiceConfig` | managed-client/core/mod.rs:124-156 | Merging copies the managed options, and under the lock the password, into replica and baseline |
| `ConfigSync.MergeIsSilent` | managed-client/core/mod.rs:136-155 | After a merge replica and service agree on every managed option, and the keys on which replica and baseline differ are the earlier ones without the managed ones |
| `ConfigSync.MergeIdempotent` | managed-client/core/mod.rs:124-156 | Merging twice is merging once |
| `ConfigSync.NoEcho` | managed-client/patches/rustdesk.patch:274-288 | After a merge the replica is pushed back if and only if the user changed something that is not managed, or the root first answered with an empty configuration and the replica is not empty |
| `ConfigSync.SendingReconciles` | managed-client/patches/rustdesk.patch:214-220 | Pushing a merged replica to a managed root changes nothing the root manages, and both sides then read every option alike |

## Left out

- HTTP routing, headers, cookies, JSON decoding, TLS, body size limits, and the engines of SQLite, chi and reqwest: libraries and plumbing; tables are maps with the schema's keys, uniqueness and cascades.
- Raw bodies: a signature covers the decoded body, so two spellings of the same JSON value are not told apart.
- Cryptographic internals, quality of randomness, password hashing of the administrator and of the host's stored permanent password.
- Separate clock readings after the signature check: one reading per transaction serves for purging and for the timestamps it writes; the reading of the signature check is separate.
- Restoring the database under an agent that holds newer counters, and two agents sharing one identity: excluded by the assumptions above. A restored backup with a freshly started agent is covered by `Convergence.TwoHeartbeatsSettle`.
- Convergence.Converges: during the calm run itself, requests of the converging agent that others send again must be refused; accepted ones could set its reports back until its next heartbeat.
- `validAddress` and the decoding of keys: replaced by the parameters `valid` and `accepts`; that the client accepts every address the server accepts is not claimed.
- CSRF tokens and origins; the check of the administrator's password, which precedes the login transaction, so a login concurrent with a password change may survive it. The session results speak of rows that exist at commit.
- Pagination, ordering and page size of lists, `detail`, `auditList`, and the settings read back after `putSettings`.
- Upstream `Config` beyond options, password and salt: overwrite, default and built-in settings, presets, and how a file is found to be empty are not part of this model. The one patched option, `allow-insecure-tls-fallback`, is.
- The acknowledgement of a pushed configuration in the sync loop, and its timing.
- The loop's sleeping time with jitter; `state.json`, which is written and never read (a failed write is an outcome of a round).
- Overflow of 64-bit versions.
- AgentLoop.Agent.ApplyServers: speaks of the three options that name servers and the switch for management; all five options with their reading back are in `ManagedConfig.RootStore.ApplyServers`, and `ManagedHost.ServersSeen` links the two.
- AgentLoop.Agent.Go: the endless loop is proved for every finite number of rounds.
- The React user interface, translations, the static file handler, scripts and the fake agent.
