// Once managed, the root's ten managed options and its locked password are
// what the adapter made them, whatever else it receives.
module RootAuthority {
  import opened Schema
  import opened ManagedConfig

  function Run(r: Root, ms: seq<Message>): Root
    decreases |ms|
  {
    if ms == [] then r else After(Run(r, ms[..|ms| - 1]), ms[|ms| - 1])
  }

  // The adapter's calls alone.
  function AdapterOnly(ms: seq<Message>): seq<Message>
    decreases |ms|
  {
    if ms == [] then []
    else AdapterOnly(ms[..|ms| - 1]) + if FromAdapter(ms[|ms| - 1]) then [ms[|ms| - 1]] else []
  }

  ghost predicate SameManaged(a: Options, b: Options) { SameOn(a, b, MANAGED) }

  ghost predicate SameOn(a: Options, b: Options, keys: seq<string>) {
    forall k :: k in keys ==> Get(a, k) == Get(b, k)
  }

  // ---------- Writing options ----------

  lemma SetReads(o: Options, key: string, value: string)
    ensures forall k :: k != key ==> Get(Set(o, key, value), k) == Get(o, k)
    ensures key != TLS ==> Get(Set(o, key, value), key) == value
  {
  }

  lemma SetSame(a: Options, b: Options, key: string, value: string, keys: seq<string>)
    requires SameOn(a, b, keys)
    ensures SameOn(Set(a, key, value), Set(b, key, value), keys)
  {
  }

  function Put(o: Options, key: string, value: string, refused: bool): Options {
    if refused then o else Set(o, key, value)
  }

  lemma PutSame(a: Options, b: Options, key: string, value: string, refused: bool, keys: seq<string>)
    requires SameOn(a, b, keys) && key in keys
    ensures SameOn(Put(a, key, value, refused), Put(b, key, value, refused), keys)
    ensures Get(Put(a, key, value, refused), key) == Get(Put(b, key, value, refused), key)
  {
  }

  ghost predicate KeysIn(pairs: seq<(string, string)>, keys: seq<string>) {
    forall i :: 0 <= i < |pairs| ==> pairs[i].0 in keys
  }

  // How a sequence of writes ends depends on the options written alone.
  lemma {:induction false} WrittenSame(a: Options, b: Options, pairs: seq<(string, string)>, i: nat, refused: int,
                                       keys: seq<string>)
    requires SameOn(a, b, keys) && KeysIn(pairs, keys)
    ensures SameOn(Written(a, pairs, i, refused).0, Written(b, pairs, i, refused).0, keys)
    ensures Written(a, pairs, i, refused).1 == Written(b, pairs, i, refused).1
    decreases |pairs| - i
  {
    hide Get, Set;
    if i >= |pairs| {
    } else {
      var key, value := pairs[i].0, pairs[i].1;
      var a1, b1 := Put(a, key, value, i == refused), Put(b, key, value, i == refused);
      PutSame(a, b, key, value, i == refused, keys);
      WrittenSame(a1, b1, pairs, i + 1, refused, keys);
    }
  }

  ghost predicate SameAt(a: Options, b: Options, k: string) {
    (k in a <==> k in b) && (k in a ==> a[k] == b[k])
  }

  lemma {:induction false} WrittenElsewhere(o: Options, pairs: seq<(string, string)>, i: nat, refused: int, k: string)
    requires forall j :: 0 <= j < |pairs| ==> pairs[j].0 != k
    ensures SameAt(Written(o, pairs, i, refused).0, o, k)
    decreases |pairs| - i
  {
    if i >= |pairs| {
    } else {
      WrittenElsewhere(if i == refused then o else Set(o, pairs[i].0, pairs[i].1), pairs, i + 1, refused, k);
    }
  }

  lemma ServerKeys(s: Servers)
    ensures KeysIn(ServerOptions(s), MANAGED)
    ensures forall j :: 0 <= j < |ServerOptions(s)| ==> ServerOptions(s)[j].0 !in [ENABLED, LOCK, CONTACT]
  {
  }

  // ---------- One message ----------

  // An incoming message leaves every managed option as it reads, and decides
  // every other one.
  lemma IncomingKeepsManaged(r: Root, m: Message)
    requires Enabled(r.config2.options) && !FromAdapter(m)
    ensures SameManaged(After(r, m).config2.options, r.config2.options)
    ensures Locked(r.config2.options) ==>
              After(r, m).config.password == r.config.password && After(r, m).config.salt == r.config.salt
  {
  }

  lemma AdapterSame(a: Root, b: Root, m: Message)
    requires FromAdapter(m) && SameManaged(a.config2.options, b.config2.options)
    ensures SameManaged(After(a, m).config2.options, After(b, m).config2.options)
    ensures a.config.password == b.config.password && a.config.salt == b.config.salt ==>
              && After(a, m).config.password == After(b, m).config.password
              && After(a, m).config.salt == After(b, m).config.salt
  {
    var p, q := a.config2.options, b.config2.options;
    match m
    case AdapterServers(s, refused) =>
      ServerKeys(s);
      WrittenSame(p, q, ServerOptions(s), 0, refused, MANAGED);
      SetSame(Written(p, ServerOptions(s), 0, refused).0, Written(q, ServerOptions(s), 0, refused).0, ENABLED, "Y",
              MANAGED);
    case AdapterPassword(_, _, _) =>
      SetSame(p, q, VERIFICATION, "use-permanent-password", MANAGED);
      var p1, q1 := Set(p, VERIFICATION, "use-permanent-password"), Set(q, VERIFICATION, "use-permanent-password");
      SetSame(p1, q1, APPROVE, "password", MANAGED);
      SetSame(Set(p1, APPROVE, "password"), Set(q1, APPROVE, "password"), LOCK, "Y", MANAGED);
    case AdapterContact(value) => SetSame(p, q, CONTACT, value, MANAGED);
  }

  // The adapter never switches management or the lock off.
  lemma AdapterKeepsSwitches(r: Root, m: Message)
    requires FromAdapter(m)
    ensures Enabled(r.config2.options) ==> Enabled(After(r, m).config2.options)
    ensures Locked(r.config2.options) ==> Locked(After(r, m).config2.options)
  {
    var o := r.config2.options;
    if m.AdapterServers? {
      ServerKeys(m.servers);
      WrittenElsewhere(o, ServerOptions(m.servers), 0, m.refused, ENABLED);
      WrittenElsewhere(o, ServerOptions(m.servers), 0, m.refused, LOCK);
    }
  }

  lemma ManagedSwitches(a: Options, b: Options)
    requires SameManaged(a, b)
    ensures Enabled(a) == Enabled(b) && Locked(a) == Locked(b)
  {
  }

  // ---------- Main results ----------

  // Root authority: in every interleaving, management stays on, and the managed
  // options read as if only the adapter's calls had happened; from a locked
  // state the same is true of the stored password and salt.
  lemma {:induction false} OnlyTheAdapterDecides(r: Root, ms: seq<Message>)
    requires Enabled(r.config2.options)
    ensures var all, adapter := Run(r, ms), Run(r, AdapterOnly(ms));
            && Enabled(all.config2.options)
            && SameManaged(all.config2.options, adapter.config2.options)
            && (Locked(r.config2.options) ==>
                  && Locked(all.config2.options)
                  && all.config.password == adapter.config.password && all.config.salt == adapter.config.salt)
    decreases |ms|
  {
    if ms == [] {
    } else {
      var before, m := ms[..|ms| - 1], ms[|ms| - 1];
      OnlyTheAdapterDecides(r, before);
      var all, adapter := Run(r, before), Run(r, AdapterOnly(before));
      if FromAdapter(m) {
        var calls := AdapterOnly(ms);
        assert calls[..|calls| - 1] == AdapterOnly(before) && calls[|calls| - 1] == m;
        AdapterSame(all, adapter, m);
        AdapterKeepsSwitches(all, m);
      } else {
        assert AdapterOnly(ms) == AdapterOnly(before);
        IncomingKeepsManaged(all, m);
        ManagedSwitches(After(all, m).config2.options, all.config2.options);
      }
    }
  }

  // The options of the last message that brought any, or else the first ones.
  function LastIncoming(first: Options, ms: seq<Message>): Options
    decreases |ms|
  {
    if ms == [] then first
    else
      match ms[|ms| - 1]
      case OptionsMessage(options) => options
      case SyncMessage(_, config2) => config2.options
      case _ => LastIncoming(first, ms[..|ms| - 1])
  }

  lemma AdapterElsewhere(r: Root, m: Message, k: string)
    requires (FromAdapter(m) || m.UserPassword?) && k !in MANAGED
    ensures SameAt(After(r, m).config2.options, r.config2.options, k)
  {
    assert MANAGED[5] == ENABLED && MANAGED[6] == CONTACT;
    assert MANAGED[7] == VERIFICATION && MANAGED[8] == APPROVE && MANAGED[9] == LOCK;
    if m.AdapterServers? {
      ServerKeys(m.servers);
      WrittenElsewhere(r.config2.options, ServerOptions(m.servers), 0, m.refused, k);
    }
  }

  // Every other option is the user's: it is what the last incoming message said.
  lemma {:induction false} OtherOptionsFollow(r: Root, ms: seq<Message>, k: string)
    requires k !in MANAGED
    ensures SameAt(Run(r, ms).config2.options, LastIncoming(r.config2.options, ms), k)
    decreases |ms|
  {
    if ms == [] {
    } else {
      OtherOptionsFollow(r, ms[..|ms| - 1], k);
      var m := ms[|ms| - 1];
      if FromAdapter(m) || m.UserPassword? {
        AdapterElsewhere(Run(r, ms[..|ms| - 1]), m, k);
      }
    }
  }
}
