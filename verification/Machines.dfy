// The whole system with real stores: agents whose host is the root's
// configuration, while any local message may reach it at any time.
module Machines {
  import opened Text
  import opened Schema
  import opened Messages
  import opened Handlers
  import opened AgentLoop
  import opened Management
  import opened Truth
  import opened Convergence
  import Config = ManagedConfig
  import opened ManagedHost

  datatype Machines = Machines(sys: System, roots: map<string, Config.Root>)

  // What happens on a store besides the agent's calls: messages from users and
  // the adapter's note of its last contact.
  datatype Act =
    | Elsewhere(event: Event)
    | Local(key: string, message: Config.Message)
    | Receive(key: string, refused: int, salt: string, password: PasswordCall, saved: bool,
              time: int, nonce: string, info: Info)

  ghost predicate Linked(m: Machines) {
    && m.roots.Keys == m.sys.nodes.Keys
    && forall key :: key in m.roots ==> ViewOf(m.roots[key]) == m.sys.nodes[key].loop.host
  }

  // ---------- The agent's calls on its store ----------

  // The store after the servers of a policy, and whether they were applied.
  function RootAfterServers(r: Config.Root, p: Policy, refused: int): Config.Root {
    Config.After(r, Config.AdapterServers(ServersOf(p.rustdesk), refused))
  }

  // The store after a whole policy.
  function RootAfterPolicy(r: Config.Root, acks: Acks, p: Policy, accepts: SettingsCheck, refused: int, salt: string,
                           call: PasswordCall): Config.Root
  {
    if !Valid(p, accepts) then r
    else
      var r1 := RootAfterServers(r, p, refused);
      var applied := ServersOutcome(r, ServersOf(p.rustdesk), refused).ServersApplied?;
      if !applied || !PasswordChanged(p, acks.passwordVersion) then r1
      else Config.After(r1, Config.AdapterPassword(p.access.value.password, salt, call))
  }

  // The store after an answer, by what the agent is waiting for.
  function RootAfterAnswer(r: Config.Root, a: Node, accepts: SettingsCheck, act: Act): Config.Root
    requires a.wire.Answer? && act.Receive?
  {
    if a.phase == AwaitBootstrap && a.wire.reply.Published? && Valid(a.wire.reply.policy, accepts)
    then RootAfterServers(r, a.wire.reply.policy, act.refused)
    else if a.phase == AwaitHeartbeat && a.wire.reply.Beat?
    then RootAfterPolicy(r, a.loop.acks, a.wire.reply.policy, accepts, act.refused, act.salt, act.password)
    else r
  }

  // How the calls end on this store, for a policy if there is one.
  function CallsOn(r: Config.Root, reply: Reply, act: Act): Calls
    requires act.Receive?
  {
    Calls(if reply.Published? || reply.Beat? then ServersOutcome(r, ServersOf(reply.policy.rustdesk), act.refused)
          else ServersApplied,
          act.password, act.saved)
  }

  // ---------- Steps ----------

  // The joint machine's event that an act amounts to.
  function EventOf(m: Machines, act: Act): Event
    requires m.roots.Keys == m.sys.nodes.Keys
  {
    match act
    case Elsewhere(e) => e
    case Local(key, message) =>
      Event.Local(key, if key in m.roots then ViewOf(Config.After(m.roots[key], message))
                       else Host(Servers("", "", ""), "", false, false))
    case Receive(key, _, _, _, _, time, nonce, info) =>
      Event.Receive(key,
                    if key in m.roots && m.sys.nodes[key].wire.Answer?
                    then CallsOn(m.roots[key], m.sys.nodes[key].wire.reply, act) else SMOOTH,
                    time, nonce, info)
  }

  function RootsAfter(m: Machines, accepts: SettingsCheck, act: Act): map<string, Config.Root>
    requires m.roots.Keys == m.sys.nodes.Keys
  {
    match act
    case Elsewhere(_) => m.roots
    case Local(key, message) =>
      if key in m.roots then m.roots[key := Config.After(m.roots[key], message)] else m.roots
    case Receive(key, _, _, _, _, _, _, _) =>
      if key in m.roots && m.sys.nodes[key].wire.Answer?
      then m.roots[key := RootAfterAnswer(m.roots[key], m.sys.nodes[key], accepts, act)] else m.roots
  }

  // Others send no adapter's calls, and touch the store only by messages.
  predicate Allowed(act: Act) {
    match act
    case Elsewhere(e) => !e.Local? && !e.Receive?
    case Local(_, message) => !message.AdapterServers? && !message.AdapterPassword?
    case Receive(_, _, _, _, _, _, _, _) => true
  }

  ghost function DoAct(master: string, accepts: SettingsCheck, m: Machines, act: Act): Machines
    requires m.roots.Keys == m.sys.nodes.Keys
  {
    Machines(Do(master, accepts, m.sys, EventOf(m, act)), RootsAfter(m, accepts, act))
  }

  // ---------- The link is kept ----------

  lemma PolicySeen(r: Config.Root, acks: Acks, p: Policy, accepts: SettingsCheck, refused: int, salt: string,
                   call: PasswordCall, saved: bool)
    ensures var calls := Calls(ServersOutcome(r, ServersOf(p.rustdesk), refused), call, saved);
            ViewOf(RootAfterPolicy(r, acks, p, accepts, refused, salt, call))
            == Applied(acks, ViewOf(r), p, accepts, calls).1
  {
    var r1 := RootAfterServers(r, p, refused);
    ServersSeen(r, ServersOf(p.rustdesk), refused);
    if p.access.Some? {
      PasswordSeen(r1, p.access.value.password, salt, call);
    }
  }

  lemma AnswerSeen(key: string, r: Config.Root, a: Node, accepts: SettingsCheck, act: Act)
    requires a.wire.Answer? && act.Receive? && ViewOf(r) == a.loop.host
    ensures ViewOf(RootAfterAnswer(r, a, accepts, act))
         == Received(key, a, accepts, CallsOn(r, a.wire.reply, act), act.time, act.nonce, act.info).loop.host
  {
    if a.phase == AwaitBootstrap && a.wire.reply.Published? {
      ServersSeen(r, ServersOf(a.wire.reply.policy.rustdesk), act.refused);
    } else if a.phase == AwaitHeartbeat && a.wire.reply.Beat? {
      PolicySeen(r, a.loop.acks, a.wire.reply.policy, accepts, act.refused, act.salt, act.password, act.saved);
    }
  }

  lemma MessageSeen(r: Config.Root, message: Config.Message)
    requires !message.AdapterServers? && !message.AdapterPassword?
    ensures ViewOf(Config.After(r, message)) == HostAfterLocal(ViewOf(r), ViewOf(Config.After(r, message)))
  {
    if message.AdapterContact? {
      ContactSeen(r, message.value);
    } else {
      LocalSeen(r, message);
    }
  }

  // Events elsewhere leave every host alone.
  lemma HostsElsewhere(master: string, accepts: SettingsCheck, sys: System, e: Event)
    requires !e.Local? && !e.Receive?
    ensures var sys' := Do(master, accepts, sys, e);
            sys'.nodes.Keys == sys.nodes.Keys
            && forall key :: key in sys.nodes ==> sys'.nodes[key].loop.host == sys.nodes[key].loop.host
  {
  }

  lemma ActLinked(master: string, accepts: SettingsCheck, m: Machines, act: Act)
    requires Linked(m) && Allowed(act)
    ensures Linked(DoAct(master, accepts, m, act))
  {
    hide FormatInt, Received, RootAfterAnswer, CallsOn, HostAfterLocal;
    match act
    case Elsewhere(e) => HostsElsewhere(master, accepts, m.sys, e);
    case Local(key, message) =>
      if key in m.roots {
        MessageSeen(m.roots[key], message);
      }
    case Receive(key, _, _, _, _, _, _, _) =>
      if key in m.roots && m.sys.nodes[key].wire.Answer? {
        AnswerSeen(key, m.roots[key], m.sys.nodes[key], accepts, act);
      }
  }

  // ---------- Runs ----------

  ghost function DoActs(master: string, accepts: SettingsCheck, m: Machines, acts: seq<Act>): (m': Machines)
    requires Linked(m) && forall i :: 0 <= i < |acts| ==> Allowed(acts[i])
    ensures Linked(m')
    decreases |acts|
  {
    if acts == [] then m
    else
      var before := DoActs(master, accepts, m, acts[..|acts| - 1]);
      ActLinked(master, accepts, before, acts[|acts| - 1]);
      DoAct(master, accepts, before, acts[|acts| - 1])
  }

  ghost function EventsOf(master: string, accepts: SettingsCheck, m: Machines, acts: seq<Act>): seq<Event>
    requires Linked(m) && forall i :: 0 <= i < |acts| ==> Allowed(acts[i])
    decreases |acts|
  {
    if acts == [] then []
    else
      var before := acts[..|acts| - 1];
      EventsOf(master, accepts, m, before) + [EventOf(DoActs(master, accepts, m, before), acts[|acts| - 1])]
  }

  // A run on real stores is a run of the joint machine.
  lemma {:induction false} RunsOnStores(master: string, accepts: SettingsCheck, m: Machines, acts: seq<Act>)
    requires Linked(m) && forall i :: 0 <= i < |acts| ==> Allowed(acts[i])
    ensures DoActs(master, accepts, m, acts).sys
         == DoAll(master, accepts, m.sys, EventsOf(master, accepts, m, acts))
    decreases |acts|
  {
    if acts == [] {
    } else {
      var before := acts[..|acts| - 1];
      RunsOnStores(master, accepts, m, before);
      var events := EventsOf(master, accepts, m, acts);
      assert events[..|events| - 1] == EventsOf(master, accepts, m, before);
    }
  }

  // Truthful synchronization down to the store: whatever users send to it, a
  // device shown as synchronized has the current password stored and locked,
  // and one that reports the current policy version has the current servers
  // stored under management.
  lemma TruthfulStores(master: string, accepts: SettingsCheck, first: Machines, acts: seq<Act>, m: Machines,
                       key: string, id: int)
    requires Linked(first) && Initial(first.sys) && forall i :: 0 <= i < |acts| ==> Allowed(acts[i])
    requires WithinEpochs(master, accepts, first.sys, EventsOf(master, accepts, first, acts))
    requires m == DoActs(master, accepts, first, acts)
    requires key in m.roots && Registered(m.sys.server, key, id)
    ensures id in m.sys.server.db.devices
    ensures PasswordSynced(m.sys.server.db, id) ==>
              && id in m.sys.server.db.creds
              && Opened(master, m.sys.server.db, id) == Some(m.roots[key].config.password)
              && Config.Enabled(m.roots[key].config2.options) && Config.Locked(m.roots[key].config2.options)
    ensures m.sys.server.db.devices[id].appliedPolicy == m.sys.server.db.settings.version ==>
              && Installed(m.roots[key].config2.options) == m.sys.server.db.settings.servers
              && Config.Enabled(m.roots[key].config2.options)
  {
    RunsOnStores(master, accepts, first, acts);
    TruthfulSync(master, accepts, first.sys, EventsOf(master, accepts, first, acts), m.sys, key, id);
    assert ViewOf(m.roots[key]) == m.sys.nodes[key].loop.host;
  }

  // ---------- Convergence ----------

  // On a store that refuses nothing, applying servers succeeds.
  lemma {:induction false} NothingRefused(o: Config.Options, s: Servers, i: nat)
    ensures Outcome(o, Config.ServerOptions(s), i, -1) == ServersApplied
    decreases |Config.ServerOptions(s)| - i
  {
    var pairs := Config.ServerOptions(s);
    if i >= |pairs| {
    } else {
      NothingRefused(Config.Set(o, pairs[i].0, pairs[i].1), s, i + 1);
    }
  }

  // So the calm runs of a node on such a store are those whose password calls
  // succeed.
  lemma SmoothOnStores(r: Config.Root, reply: Reply, act: Act)
    requires act.Receive? && act.refused == -1 && act.password == PasswordApplied && act.saved
    ensures CallsOn(r, reply, act) == SMOOTH
  {
    if reply.Published? || reply.Beat? {
      NothingRefused(r.config2.options, ServersOf(reply.policy.rustdesk), 0);
    }
  }

  // Convergence down to the store: in any calm run on stores in which the agent
  // receives two answers or takes ten steps, both applied versions become
  // current, and servers and password are in the root's configuration, managed
  // and locked, whatever users send to it meanwhile.
  lemma StoresConverge(master: string, accepts: SettingsCheck, first: Machines, past: seq<Act>, acts: seq<Act>,
                       m: Machines, last: Machines, key: string, id: int)
    requires Linked(first) && Initial(first.sys)
    requires forall i :: 0 <= i < |past| ==> Allowed(past[i])
    requires forall i :: 0 <= i < |acts| ==> Allowed(acts[i])
    requires WithinEpochs(master, accepts, first.sys, EventsOf(master, accepts, first, past))
    requires m == DoActs(master, accepts, first, past) && last == DoActs(master, accepts, m, acts)
    requires key in m.sys.nodes && m.sys.nodes[key].phase == Idle && |key| == KEY_SIZE
    requires ValidUuid(m.sys.nodes[key].uuid)
    requires Registered(m.sys.server, key, id) && id in m.sys.server.db.devices
    requires m.sys.server.db.devices[id].status == Approved && accepts(m.sys.server.db.settings.servers)
    requires var events := EventsOf(master, accepts, m, acts);
             && CalmRun(master, accepts, m.sys, events, key, id)
             && (CountBeats(master, accepts, m.sys, events, key) >= 2
                 || CountMoves(master, accepts, m.sys, events, key) >= 10)
    ensures InStep(master, last.sys, key, id) && key in last.roots
    ensures var db, root := last.sys.server.db, last.roots[key];
            && id in db.creds && Opened(master, db, id) == Some(root.config.password)
            && Installed(root.config2.options) == db.settings.servers
            && Config.Enabled(root.config2.options) && Config.Locked(root.config2.options)
  {
    hide Linked, CalmRun, CountBeats, CountMoves, DoActs, EventsOf, DoAll, InStep, WithinEpochs, Initial, ValidUuid;
    RunsOnStores(master, accepts, first, past);
    RunsOnStores(master, accepts, m, acts);
    Converges(master, accepts, first.sys, EventsOf(master, accepts, first, past), EventsOf(master, accepts, m, acts),
              m.sys, key, id);
    StoreInStep(master, last, key, id);
  }

  lemma StoreInStep(master: string, m: Machines, key: string, id: int)
    requires Linked(m) && InStep(master, m.sys, key, id)
    ensures key in m.roots
    ensures var db, root := m.sys.server.db, m.roots[key];
            && id in db.creds && Opened(master, db, id) == Some(root.config.password)
            && Installed(root.config2.options) == db.settings.servers
            && Config.Enabled(root.config2.options) && Config.Locked(root.config2.options)
  {
    assert ViewOf(m.roots[key]) == m.sys.nodes[key].loop.host;
  }
}
