// The root's store of a managed machine, seen as the host that the agent drives.
module ManagedHost {
  import opened Schema
  import opened AgentLoop
  import opened ManagedConfig
  import opened RootAuthority

  function Installed(o: Options): Servers { Servers(Get(o, ID_SERVER), Get(o, RELAY), Get(o, KEY)) }

  function ViewOf(r: Root): Host {
    Host(Installed(r.config2.options), r.config.password, Enabled(r.config2.options), Locked(r.config2.options))
  }

  // How applying servers ends: the first option that does not read back.
  function Outcome(o: Options, pairs: seq<(string, string)>, i: nat, refused: int): ServersCall
    decreases |pairs| - i
  {
    if i >= |pairs| then ServersApplied
    else
      var o1 := if i == refused then o else Set(o, pairs[i].0, pairs[i].1);
      if Get(o1, pairs[i].0) != pairs[i].1 then ServersFailed(i) else Outcome(o1, pairs, i + 1, refused)
  }

  function ServersOutcome(r: Root, s: Servers, refused: int): ServersCall {
    Outcome(r.config2.options, ServerOptions(s), 0, refused)
  }

  // ---------- Options as the view reads them ----------

  // The options outside the five that servers are written to.
  ghost predicate SameSwitches(a: Options, b: Options) {
    Enabled(a) == Enabled(b) && Locked(a) == Locked(b)
  }

  lemma OneOptionWritten(o: Options, s: Servers, i: nat, before: Servers)
    requires i < 5 && Installed(o) == WrittenServers(before, s, i)
    ensures var o1 := Set(o, ServerOptions(s)[i].0, ServerOptions(s)[i].1);
            Installed(o1) == WrittenServers(before, s, i + 1) && SameSwitches(o1, o)
  {
    SetReads(o, ServerOptions(s)[i].0, ServerOptions(s)[i].1);
  }

  // An option that a refused write leaves as it should be counts as written.
  lemma OneOptionRefused(o: Options, s: Servers, i: nat, before: Servers)
    requires i < 5 && Installed(o) == WrittenServers(before, s, i)
    requires Get(o, ServerOptions(s)[i].0) == ServerOptions(s)[i].1
    ensures Installed(o) == WrittenServers(before, s, i + 1)
  {
  }

  lemma {:induction false} WritingServers(o: Options, s: Servers, i: nat, refused: int, before: Servers)
    requires i <= 5 && Installed(o) == WrittenServers(before, s, i)
    ensures var (o1, ok) := Written(o, ServerOptions(s), i, refused);
            var call := Outcome(o, ServerOptions(s), i, refused);
            && ok == call.ServersApplied? && SameSwitches(o1, o)
            && Installed(o1) == if call.ServersApplied? then s else WrittenServers(before, s, call.written)
    decreases 5 - i
  {
    if i >= 5 {
    } else {
      var pairs := ServerOptions(s);
      var o1 := if i == refused then o else Set(o, pairs[i].0, pairs[i].1);
      if i != refused {
        OneOptionWritten(o, s, i, before);
      }
      if Get(o1, pairs[i].0) == pairs[i].1 {
        if i == refused {
          OneOptionRefused(o, s, i, before);
        }
        WritingServers(o1, s, i + 1, refused, before);
      } else if i != refused {
        SetReads(o, pairs[i].0, pairs[i].1);
      }
    }
  }

  // ---------- Every message, as the agent's host sees it ----------

  // Applying servers is one of the outcomes that the agent's loop reckons with.
  lemma ServersSeen(r: Root, s: Servers, refused: int)
    ensures ServersOutcome(r, s, refused).ServersApplied? == ServersWritten(r.config2.options, s, refused).1
    ensures ViewOf(After(r, AdapterServers(s, refused)))
         == HostAfterServers(ViewOf(r), s, ServersOutcome(r, s, refused))
  {
    var o := r.config2.options;
    WritingServers(o, s, 0, refused, Installed(o));
    SetReads(Written(o, ServerOptions(s), 0, refused).0, ENABLED, "Y");
  }

  lemma PasswordOptionsSeen(o: Options)
    ensures Installed(PasswordOptions(o)) == Installed(o) && Enabled(PasswordOptions(o)) == Enabled(o)
    ensures Locked(PasswordOptions(o))
  {
    var o1 := Set(o, VERIFICATION, "use-permanent-password");
    var o2 := Set(o1, APPROVE, "password");
    SetReads(o, VERIFICATION, "use-permanent-password");
    SetReads(o1, APPROVE, "password");
    SetReads(o2, LOCK, "Y");
  }

  lemma PasswordSeen(r: Root, password: string, salt: string, call: PasswordCall)
    ensures ViewOf(After(r, AdapterPassword(password, salt, call))) == HostAfterPassword(ViewOf(r), password, call)
  {
    PasswordOptionsSeen(r.config2.options);
  }

  lemma ContactSeen(r: Root, value: string)
    ensures ViewOf(After(r, AdapterContact(value))) == ViewOf(r)
  {
    SetReads(r.config2.options, CONTACT, value);
  }

  // What others send changes the host at most as the agent's loop reckons with.
  lemma LocalSeen(r: Root, m: Message)
    requires !FromAdapter(m)
    ensures ViewOf(After(r, m)) == HostAfterLocal(ViewOf(r), ViewOf(After(r, m)))
  {
    if Enabled(r.config2.options) {
      IncomingKeepsManaged(r, m);
      ManagedSwitches(After(r, m).config2.options, r.config2.options);
      ManagedServers(After(r, m).config2.options, r.config2.options);
    }
  }

  lemma ManagedServers(a: Options, b: Options)
    requires SameManaged(a, b)
    ensures Installed(a) == Installed(b)
  {
    assert MANAGED[0] == ID_SERVER && MANAGED[1] == RELAY && MANAGED[2] == KEY;
  }
}
