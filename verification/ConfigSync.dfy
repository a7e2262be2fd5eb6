// The user's replica of the configuration: what the root manages is copied in,
// and only the user's own edits are sent back.
module ConfigSync {
  import opened ManagedConfig

  // The replica and the baseline it is compared with.
  datatype User = User(config: Config, config2: Config2, base: Config, base2: Config2)

  // Managed options as the service has them, all others as they are.
  function Merged(o: Options, service: Options): Options { MergedKeys(o, service, MANAGED) }

  function MergedKeys(o: Options, service: Options, keys: seq<string>): Options {
    map k | k in o.Keys + service.Keys && (k in keys ==> k in service && service[k] != "") && (k !in keys ==> k in o)
      :: if k in keys then service[k] else o[k]
  }

  predicate ServiceLocked(service: Options) { LOCK in service && service[LOCK] == "Y" }

  function WithPassword(c: Config, source: Config): Config {
    c.(password := source.password, salt := source.salt)
  }

  function AfterMerge(u: User, source: Config, source2: Config2): User {
    var locked := ServiceLocked(source2.options);
    User(if locked then WithPassword(u.config, source) else u.config,
         u.config2.(options := Merged(u.config2.options, source2.options)),
         if locked then WithPassword(u.base, source) else u.base,
         u.base2.(options := Merged(u.base2.options, source2.options)))
  }

  lemma OneMoreMerged(o: Options, service: Options, keys: seq<string>, key: string)
    ensures var value := if key in service then service[key] else "";
            MergedKeys(o, service, keys + [key]) == Set(MergedKeys(o, service, keys), key, value)
  {
  }

  class UserStore {
    var config: Config
    var config2: Config2
    var base: Config
    var base2: Config2

    function Value(): User
      reads this
    {
      User(config, config2, base, base2)
    }

    constructor (config: Config, config2: Config2)
      ensures Value() == User(config, config2, config, config2)
    {
      this.config, this.config2, this.base, this.base2 := config, config2, config, config2;
    }

    method MergeServiceConfig(source: Config, source2: Config2)
      modifies this
      ensures Value() == AfterMerge(old(Value()), source, source2)
    {
      if LOCK in source2.options && source2.options[LOCK] == "Y" {
        config := config.(password := source.password, salt := source.salt);
        base := base.(password := source.password, salt := source.salt);
      }
      ghost var start, start2 := config2, base2;
      assert MergedKeys(start.options, source2.options, []) == start.options;
      assert MergedKeys(start2.options, source2.options, []) == start2.options;
      for i := 0 to |MANAGED|
        invariant config == (if ServiceLocked(source2.options) then WithPassword(old(config), source) else old(config))
        invariant base == (if ServiceLocked(source2.options) then WithPassword(old(base), source) else old(base))
        invariant config2 == start.(options := MergedKeys(start.options, source2.options, MANAGED[..i]))
        invariant base2 == start2.(options := MergedKeys(start2.options, source2.options, MANAGED[..i]))
      {
        var key := MANAGED[i];
        var value := if key in source2.options then source2.options[key] else "";
        assert MANAGED[..i + 1] == MANAGED[..i] + [key];
        OneMoreMerged(start.options, source2.options, MANAGED[..i], key);
        OneMoreMerged(start2.options, source2.options, MANAGED[..i], key);
        config2 := config2.(options := Set(config2.options, key, value));
        base2 := base2.(options := if value == "" then base2.options - {key} else base2.options[key := value]);
      }
      assert MANAGED[..|MANAGED|] == MANAGED;
    }
  }

  // ---------- Merging ----------

  function Value(o: Options, key: string): string { if key in o then o[key] else "" }

  // The keys on which two files differ, an absent key from an empty one too.
  function Difference(a: Options, b: Options): set<string> {
    set k | k in a.Keys + b.Keys && (k in a && k in b ==> a[k] != b[k])
  }

  lemma NoDifference(a: Options, b: Options)
    ensures Difference(a, b) == {} <==> a == b
  {
    if Difference(a, b) == {} {
      forall k | k in a.Keys + b.Keys ensures k in a && k in b && a[k] == b[k] {
        assert k !in Difference(a, b);
      }
    }
  }

  // After a merge the replica agrees with the service on every managed option,
  // and its remaining differences from the baseline are exactly the earlier
  // ones on other options.
  lemma MergeIsSilent(o: Options, base: Options, service: Options)
    ensures forall k :: k in MANAGED ==> Value(Merged(o, service), k) == Value(service, k)
    ensures forall k :: k !in MANAGED ==>
              (k in Merged(o, service) <==> k in o) && (k in o ==> Merged(o, service)[k] == o[k])
    ensures Difference(Merged(o, service), Merged(base, service)) == Difference(o, base) - set k | k in MANAGED
  {
    var m, n := Merged(o, service), Merged(base, service);
    forall k ensures k in Difference(m, n) <==> k in Difference(o, base) && k !in MANAGED {
    }
  }

  lemma MergeTwice(o: Options, service: Options)
    ensures Merged(Merged(o, service), service) == Merged(o, service)
  {
  }

  lemma MergeIdempotent(u: User, source: Config, source2: Config2)
    ensures AfterMerge(AfterMerge(u, source, source2), source, source2) == AfterMerge(u, source, source2)
  {
    MergeTwice(u.config2.options, source2.options);
    MergeTwice(u.base2.options, source2.options);
  }

  // ---------- Sending back ----------

  // The loop's test, with what it remembers of the root's first answer.
  predicate ShouldSync(u: User, rootWasEmpty: bool, configEmpty: bool) {
    u.config != u.base || u.config2 != u.base2 || (rootWasEmpty && !configEmpty)
  }

  // No echo: after a merge the replica is sent back exactly when the user
  // changed something that is not managed, or when the root's first answer was
  // empty and the replica is not.
  lemma NoEcho(u: User, source: Config, source2: Config2, rootWasEmpty: bool, configEmpty: bool)
    ensures var u' := AfterMerge(u, source, source2);
            ShouldSync(u', rootWasEmpty, configEmpty) <==>
              || !(Difference(u.config2.options, u.base2.options) <= set k | k in MANAGED)
              || u.config2.rest != u.base2.rest
              || u.config.rest != u.base.rest
              || (!ServiceLocked(source2.options)
                  && (u.config.password != u.base.password || u.config.salt != u.base.salt))
              || (rootWasEmpty && !configEmpty)
  {
    var u' := AfterMerge(u, source, source2);
    MergeIsSilent(u.config2.options, u.base2.options, source2.options);
    NoDifference(u'.config2.options, u'.base2.options);
  }

  // Sending the merged replica back to a managed root changes nothing that the
  // root manages, and afterwards both sides read every option alike; with the
  // lock on they also store the same password.
  lemma SendingReconciles(r: Root, u: User)
    requires Enabled(r.config2.options)
    ensures var u' := AfterMerge(u, r.config, r.config2);
            var r' := After(r, SyncMessage(u'.config, u'.config2));
            && (forall k :: Get(r'.config2.options, k) == Get(u'.config2.options, k))
            && (forall k :: k in MANAGED ==> Get(r'.config2.options, k) == Get(r.config2.options, k))
            && (Locked(r.config2.options) ==>
                  && r'.config == u'.config
                  && r'.config.password == r.config.password && r'.config.salt == r.config.salt)
  {
  }
}
