// The agent's loop: acknowledgement counters that advance only after the host
// accepted a change and that are dropped on any failure.
module AgentLoop {
  import opened Text
  import opened Schema
  import opened Messages

  // ---------- Values the loop works on ----------

  datatype Acks = Acks(policyVersion: nat, passwordVersion: nat)

  const NO_ACKS := Acks(0, 0)

  // What is installed on the machine, whether it counts as managed, and whether
  // its password is locked.
  datatype Host = Host(servers: Servers, password: string, managed: bool, locked: bool)

  // How the host's calls end.  Options are written in order, so a failed
  // apply_servers leaves a written prefix; a failed apply_password leaves the
  // old or the new password.
  datatype ServersCall = ServersApplied | ServersFailed(written: nat)

  datatype PasswordCall = PasswordApplied | PasswordFailed(stored: bool)

  datatype Calls = Calls(servers: ServersCall, password: PasswordCall, saved: bool)

  const SMOOTH := Calls(ServersApplied, PasswordApplied, true)

  datatype Loop = Loop(acks: Acks, enrolled: bool, failures: nat, host: Host)

  // ---------- Specification ----------

  function WrittenServers(before: Servers, after: Servers, written: nat): Servers {
    Servers(if written >= 1 then after.idServer else before.idServer,
            if written >= 2 then after.relayServer else before.relayServer,
            if written >= 3 then after.key else before.key)
  }

  function HostAfterServers(h: Host, servers: Servers, call: ServersCall): Host {
    match call
    case ServersApplied => h.(servers := servers, managed := true)
    case ServersFailed(written) => h.(servers := WrittenServers(h.servers, servers, written))
  }

  function HostAfterPassword(h: Host, password: string, call: PasswordCall): Host {
    match call
    case PasswordApplied => h.(password := password, locked := true)
    case PasswordFailed(stored) => if stored then h.(password := password) else h
  }

  // What others on the machine can make of it: anything while it is not
  // managed, the password at most while it is not locked, and then nothing.
  function HostAfterLocal(h: Host, change: Host): Host {
    if !h.managed then change else if !h.locked then h.(password := change.password) else h
  }

  // Validation, servers, policy version, then the password if its version is new.
  function Applied(acks: Acks, host: Host, p: Policy, accepts: SettingsCheck, calls: Calls): (Acks, Host, bool) {
    if !Valid(p, accepts) then (acks, host, false)
    else
      var h1 := HostAfterServers(host, ServersOf(p.rustdesk), calls.servers);
      if calls.servers.ServersFailed? then (acks, h1, false)
      else
        var a1 := acks.(policyVersion := p.policyVersion);
        if !PasswordChanged(p, acks.passwordVersion) then (a1, h1, true)
        else
          var access := p.access.value;
          var h2 := HostAfterPassword(h1, access.password, calls.password);
          if calls.password.PasswordFailed? then (a1, h2, false)
          else (a1.(passwordVersion := access.passwordVersion), h2, true)
  }

  const LAST_RETRY := 5

  // Every error path ends here: nothing stays acknowledged.
  function Failed(l: Loop): Loop {
    Loop(NO_ACKS, false, if l.failures + 1 < LAST_RETRY then l.failures + 1 else LAST_RETRY, l.host)
  }

  // After a bootstrap reply, and whether the loop goes on to enroll.
  function AfterBootstrap(l: Loop, p: Policy, accepts: SettingsCheck, call: ServersCall): (Loop, bool) {
    if !Valid(p, accepts) then (Failed(l), false)
    else
      var h := HostAfterServers(l.host, ServersOf(p.rustdesk), call);
      if call.ServersFailed? then (Failed(l.(host := h)), false)
      else (l.(host := h, acks := l.acks.(policyVersion := p.policyVersion)), true)
  }

  function AfterHeartbeat(l: Loop, p: Policy, accepts: SettingsCheck, calls: Calls): Loop {
    var (acks, host, ok) := Applied(l.acks, l.host, p, accepts, calls);
    if ok && calls.saved then l.(acks := acks, host := host, failures := 0) else Failed(l.(host := host))
  }

  // One trip around the loop, as the environment lets it go.
  datatype Round = Round(bootstrap: Option<Policy>, bootstrapCall: ServersCall, enrolled: bool,
                         heartbeat: Option<Policy>, calls: Calls)

  function AfterRound(l: Loop, r: Round, accepts: SettingsCheck): Loop {
    if l.enrolled then AfterReply(l, r, accepts)
    else if r.bootstrap.None? then Failed(l)
    else
      var (l1, ok) := AfterBootstrap(l, r.bootstrap.value, accepts, r.bootstrapCall);
      if !ok then l1
      else if !r.enrolled then Failed(l1)
      else AfterReply(l1.(enrolled := true), r, accepts)
  }

  function AfterReply(l: Loop, r: Round, accepts: SettingsCheck): Loop {
    if r.heartbeat.None? then Failed(l) else AfterHeartbeat(l, r.heartbeat.value, accepts, r.calls)
  }

  function AfterRounds(l: Loop, rounds: seq<Round>, accepts: SettingsCheck): Loop
    decreases |rounds|
  {
    if rounds == [] then l
    else AfterRound(AfterRounds(l, rounds[..|rounds| - 1], accepts), rounds[|rounds| - 1], accepts)
  }

  // ---------- The agent itself ----------

  const RETRY: seq<nat> := [5, 10, 30, 60, 300, 600]

  class Agent {
    var acks: Acks
    var enrolled: bool
    var failures: nat
    var host: Host

    function Value(): Loop
      reads this
    {
      Loop(acks, enrolled, failures, host)
    }

    constructor (host: Host)
      ensures Value() == Loop(NO_ACKS, false, 0, host)
    {
      this.acks, this.enrolled, this.failures, this.host := NO_ACKS, false, 0, host;
    }

    method ApplyServers(servers: Servers, call: ServersCall) returns (ok: bool)
      modifies this`host
      ensures host == HostAfterServers(old(host), servers, call) && ok == call.ServersApplied?
    {
      var options := [servers.idServer, servers.relayServer, servers.key];
      var limit := match call case ServersApplied => 3 case ServersFailed(written) => written;
      var i := 0;
      while i < 3 && i < limit
        invariant 0 <= i <= 3 && i <= limit
        invariant host == old(host).(servers := WrittenServers(old(host).servers, servers, i))
      {
        host := match i
          case 0 => host.(servers := host.servers.(idServer := options[0]))
          case 1 => host.(servers := host.servers.(relayServer := options[1]))
          case _ => host.(servers := host.servers.(key := options[2]));
        i := i + 1;
      }
      ok := call.ServersApplied?;
      if ok {
        host := host.(managed := true);
      }
    }

    method ApplyPassword(password: string, call: PasswordCall) returns (ok: bool)
      modifies this`host
      ensures host == HostAfterPassword(old(host), password, call) && ok == call.PasswordApplied?
    {
      match call {
        case PasswordApplied => host := host.(password := password, locked := true);
        case PasswordFailed(stored) =>
          if stored {
            host := host.(password := password);
          }
      }
      ok := call.PasswordApplied?;
    }

    method ApplyPolicy(p: Policy, accepts: SettingsCheck, calls: Calls) returns (ok: bool)
      modifies this`host, this`acks
      ensures (acks, host, ok) == Applied(old(acks), old(host), p, accepts, calls)
    {
      if !Valid(p, accepts) {
        return false;
      }
      ok := ApplyServers(ServersOf(p.rustdesk), calls.servers);
      if !ok {
        return;
      }
      if PolicyChanged(p, acks.policyVersion) {
        acks := acks.(policyVersion := p.policyVersion);
      }
      if PasswordChanged(p, acks.passwordVersion) {
        ok := ApplyPassword(p.access.value.password, calls.password);
        if !ok {
          return;
        }
        acks := acks.(passwordVersion := p.access.value.passwordVersion);
      }
    }

    // The error arm of the loop; returns how long to sleep.
    method Fail() returns (delay: nat)
      modifies this
      ensures Value() == Failed(old(Value()))
      ensures delay == RETRY[if old(failures) < 5 then old(failures) else 5]
    {
      enrolled := false;
      acks := NO_ACKS;
      delay := RETRY[if failures < |RETRY| - 1 then failures else |RETRY| - 1];
      failures := if failures + 1 < |RETRY| - 1 then failures + 1 else |RETRY| - 1;
    }

    // The fallible part of one trip around the loop.
    method Attempt(r: Round, accepts: SettingsCheck) returns (ok: bool)
      modifies this
      ensures failures == old(failures)
      ensures (if ok then Value().(failures := 0) else Failed(Value())) == AfterRound(old(Value()), r, accepts)
    {
      if !enrolled {
        if r.bootstrap.None? || !Valid(r.bootstrap.value, accepts) {
          return false;
        }
        ok := ApplyServers(ServersOf(r.bootstrap.value.rustdesk), r.bootstrapCall);
        if !ok {
          return;
        }
        acks := acks.(policyVersion := r.bootstrap.value.policyVersion);
        if !r.enrolled {
          return false;
        }
        enrolled := true;
      }
      if r.heartbeat.None? {
        return false;
      }
      ok := ApplyPolicy(r.heartbeat.value, accepts, r.calls);
      ok := ok && r.calls.saved;
    }

    // The loop, for as many trips as the environment provides.
    method Go(rounds: seq<Round>, accepts: SettingsCheck)
      modifies this
      ensures Value() == AfterRounds(old(Value()), rounds, accepts)
    {
      for i := 0 to |rounds|
        invariant Value() == AfterRounds(old(Value()), rounds[..i], accepts)
      {
        assert rounds[..i + 1][..i] == rounds[..i];
        var ok := Attempt(rounds[i], accepts);
        if ok {
          failures := 0;
        } else {
          var _ := Fail();
        }
      }
      assert rounds[..|rounds|] == rounds;
    }
  }

  // ---------- What acknowledgements are worth by themselves ----------

  // A policy applied without error leaves its settings on the host and its
  // version acknowledged on a managed machine, and its password and version,
  // locked, whenever it brings a version not yet acknowledged.
  lemma AckedMeansInstalled(acks: Acks, host: Host, p: Policy, accepts: SettingsCheck, calls: Calls)
    requires Applied(acks, host, p, accepts, calls).2
    ensures var (a, h, _) := Applied(acks, host, p, accepts, calls);
            && a.policyVersion == p.policyVersion && h.servers == ServersOf(p.rustdesk) && h.managed
            && (a.passwordVersion != acks.passwordVersion ==>
                  && p.access.Some? && a.passwordVersion == p.access.value.passwordVersion
                  && h.password == p.access.value.password && h.locked)
            && (p.access.Some? ==> a.passwordVersion == p.access.value.passwordVersion)
            && (p.access.None? ==> a.passwordVersion == acks.passwordVersion && h.password == host.password)
  {
  }

  // In any history of rounds the counters are clear whenever the agent is not
  // enrolled, and a password version is acknowledged only after a policy with
  // that version and that password, which is the one still installed.
  lemma {:induction false} AcksComeFromReplies(rounds: seq<Round>, accepts: SettingsCheck, host: Host)
    ensures var l := AfterRounds(Loop(NO_ACKS, false, 0, host), rounds, accepts);
            && (!l.enrolled ==> l.acks == NO_ACKS)
            && l.failures <= LAST_RETRY
            && (l.acks.passwordVersion > 0 ==>
                  exists i :: 0 <= i < |rounds| && Delivered(rounds[i], l.acks.passwordVersion, l.host.password))
    decreases |rounds|
  {
    var first := Loop(NO_ACKS, false, 0, host);
    if rounds == [] {
    } else {
      var before, r := rounds[..|rounds| - 1], rounds[|rounds| - 1];
      AcksComeFromReplies(before, accepts, host);
      var l, l' := AfterRounds(first, before, accepts), AfterRounds(first, rounds, accepts);
      if l'.acks.passwordVersion > 0 {
        if Delivered(r, l'.acks.passwordVersion, l'.host.password) {
          assert rounds[|rounds| - 1] == r;
        } else {
          assert l'.acks.passwordVersion == l.acks.passwordVersion && l'.host.password == l.host.password;
          var i :| 0 <= i < |before| && Delivered(before[i], l.acks.passwordVersion, l.host.password);
          assert rounds[i] == before[i];
        }
      }
    }
  }

  predicate Delivered(r: Round, version: nat, password: string) {
    && r.heartbeat.Some? && r.heartbeat.value.access.Some?
    && r.heartbeat.value.access.value.passwordVersion == version
    && r.heartbeat.value.access.value.password == password
  }
}
