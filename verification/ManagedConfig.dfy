// Configuration of a managed machine: the root's store, which only the
// management adapter may change in ten places, and the user's replica, which
// takes those ten places from the root.
module ManagedConfig {
  import opened Schema
  import opened AgentLoop

  const ID_SERVER := "custom-rendezvous-server"
  const RELAY := "relay-server"
  const KEY := "key"
  const API := "api-server"
  const TLS := "allow-insecure-tls-fallback"
  const ENABLED := "managed-control-enabled"
  const CONTACT := "managed-control-last-contact"
  const VERIFICATION := "verification-method"
  const APPROVE := "approve-mode"
  const LOCK := "disable-change-permanent-password"

  const MANAGED: seq<string> :=
    [ID_SERVER, RELAY, KEY, API, TLS, ENABLED, CONTACT, VERIFICATION, APPROVE, LOCK]

  type Options = map<string, string>

  // The stored password with its salt, and everything else in the two files.
  datatype Config = Config(password: string, salt: string, rest: string)

  datatype Config2 = Config2(options: Options, rest: string)

  // ---------- Options ----------

  // Reading an option; one of them is fixed by the build.
  function Get(o: Options, key: string): string {
    if key == TLS then "N" else if key in o then o[key] else ""
  }

  function Set(o: Options, key: string, value: string): Options {
    if value == "" then o - {key} else o[key := value]
  }

  predicate Enabled(o: Options) { Get(o, ENABLED) == "Y" }

  predicate Locked(o: Options) { Get(o, LOCK) == "Y" }

  // Incoming options with the managed ones replaced by those in force.
  function Preserved(current: Options, incoming: Options): Options {
    if Enabled(current) then PreservedKeys(current, incoming, MANAGED) else incoming
  }

  function PreservedKeys(current: Options, incoming: Options, keys: seq<string>): Options {
    map k | k in incoming.Keys + (set m | m in keys) && (k in keys ==> Get(current, k) != "")
      :: if k in keys then Get(current, k) else incoming[k]
  }

  lemma OneMorePreserved(current: Options, incoming: Options, keys: seq<string>, key: string)
    ensures PreservedKeys(current, incoming, keys + [key])
         == Set(PreservedKeys(current, incoming, keys), key, Get(current, key))
  {
    var value := Get(current, key);
    var more, fewer := PreservedKeys(current, incoming, keys + [key]), PreservedKeys(current, incoming, keys);
    forall k
      ensures (k in more <==> k in Set(fewer, key, value)) && (k in more ==> more[k] == Set(fewer, key, value)[k])
    {
      if k == key {
        assert k in keys + [key];
      } else {
        assert k in keys + [key] <==> k in keys;
      }
    }
  }

  function PreservedConfig(current: Config, options: Options, incoming: Config): Config {
    if Locked(options) then incoming.(password := current.password, salt := current.salt) else incoming
  }

  // ---------- The root ----------

  datatype Root = Root(config: Config, config2: Config2)

  datatype Message =
    | OptionsMessage(options: Options)
    | SyncMessage(config: Config, config2: Config2)
    | UserPassword(password: string, salt: string)
    | AdapterServers(servers: Servers, refused: int)
    | AdapterPassword(password: string, salt: string, call: PasswordCall)
    | AdapterContact(value: string)

  predicate FromAdapter(m: Message) { m.AdapterServers? || m.AdapterPassword? || m.AdapterContact? }

  function ServerOptions(s: Servers): seq<(string, string)> {
    [(ID_SERVER, s.idServer), (RELAY, s.relayServer), (KEY, s.key), (API, ""), (TLS, "N")]
  }

  // Writing options in order from the i-th; the store may refuse one of them,
  // and the first that does not read back ends the call.
  function Written(o: Options, pairs: seq<(string, string)>, i: nat, refused: int): (Options, bool)
    decreases |pairs| - i
  {
    if i >= |pairs| then (o, true)
    else
      var o1 := if i == refused then o else Set(o, pairs[i].0, pairs[i].1);
      if Get(o1, pairs[i].0) != pairs[i].1 then (o1, false) else Written(o1, pairs, i + 1, refused)
  }

  function ServersWritten(o: Options, s: Servers, refused: int): (Options, bool) {
    var (o1, ok) := Written(o, ServerOptions(s), 0, refused);
    (if ok then Set(o1, ENABLED, "Y") else o1, ok)
  }

  function PasswordOptions(o: Options): Options {
    Set(Set(Set(o, VERIFICATION, "use-permanent-password"), APPROVE, "password"), LOCK, "Y")
  }

  function After(r: Root, m: Message): Root {
    match m
    case OptionsMessage(options) => r.(config2 := r.config2.(options := Preserved(r.config2.options, options)))
    case SyncMessage(config, config2) =>
      Root(PreservedConfig(r.config, r.config2.options, config),
           config2.(options := Preserved(r.config2.options, config2.options)))
    case UserPassword(password, salt) =>
      if Locked(r.config2.options) then r else r.(config := r.config.(password := password, salt := salt))
    case AdapterServers(servers, refused) =>
      r.(config2 := r.config2.(options := ServersWritten(r.config2.options, servers, refused).0))
    case AdapterPassword(password, salt, call) =>
      var config := if call == PasswordFailed(false) then r.config else r.config.(password := password, salt := salt);
      Root(config,
           if call.PasswordApplied? then r.config2.(options := PasswordOptions(r.config2.options)) else r.config2)
    case AdapterContact(value) => r.(config2 := r.config2.(options := Set(r.config2.options, CONTACT, value)))
  }

  class RootStore {
    var config: Config
    var config2: Config2

    function Value(): Root
      reads this
    {
      Root(config, config2)
    }

    constructor (config: Config, config2: Config2)
      ensures Value() == Root(config, config2)
    {
      this.config, this.config2 := config, config2;
    }

    method PreserveOptions(incoming: Options) returns (options: Options)
      ensures options == Preserved(config2.options, incoming)
    {
      options := incoming;
      if !Enabled(config2.options) {
        return;
      }
      for i := 0 to |MANAGED|
        invariant options == PreservedKeys(config2.options, incoming, MANAGED[..i])
      {
        var key := MANAGED[i];
        var value := Get(config2.options, key);
        assert MANAGED[..i + 1] == MANAGED[..i] + [key];
        OneMorePreserved(config2.options, incoming, MANAGED[..i], key);
        options := if value == "" then options - {key} else options[key := value];
      }
      assert MANAGED[..|MANAGED|] == MANAGED;
    }

    method ReceiveOptions(incoming: Options)
      modifies this
      ensures Value() == After(old(Value()), OptionsMessage(incoming))
    {
      var options := PreserveOptions(incoming);
      config2 := config2.(options := options);
    }

    method ReceiveConfig(incoming: Config, incoming2: Config2)
      modifies this
      ensures Value() == After(old(Value()), SyncMessage(incoming, incoming2))
    {
      var options := PreserveOptions(incoming2.options);
      var next := incoming;
      if Locked(config2.options) {
        next := next.(password := config.password, salt := config.salt);
      }
      config := next;
      config2 := incoming2.(options := options);
    }

    method ApplyServers(servers: Servers, refused: int) returns (ok: bool)
      modifies this`config2
      ensures Value() == After(old(Value()), AdapterServers(servers, refused))
      ensures ok == ServersWritten(old(config2.options), servers, refused).1
    {
      var pairs := ServerOptions(servers);
      var i := 0;
      while i < |pairs|
        invariant 0 <= i <= |pairs| && config == old(config) && config2 == old(config2).(options := config2.options)
        invariant Written(config2.options, pairs, i, refused) == Written(old(config2.options), pairs, 0, refused)
      {
        var (key, value) := pairs[i];
        if i != refused {
          config2 := config2.(options := Set(config2.options, key, value));
        }
        if Get(config2.options, key) != value {
          return false;
        }
        i := i + 1;
      }
      config2 := config2.(options := Set(config2.options, ENABLED, "Y"));
      ok := true;
    }

    method ApplyPassword(password: string, salt: string, call: PasswordCall) returns (ok: bool)
      modifies this
      ensures Value() == After(old(Value()), AdapterPassword(password, salt, call))
      ensures ok == call.PasswordApplied?
    {
      if call != PasswordFailed(false) {
        config := config.(password := password, salt := salt);
      }
      if call.PasswordFailed? {
        return false;
      }
      config2 := config2.(options := Set(config2.options, VERIFICATION, "use-permanent-password"));
      config2 := config2.(options := Set(config2.options, APPROVE, "password"));
      config2 := config2.(options := Set(config2.options, LOCK, "Y"));
      ok := true;
    }

    method Connected(value: string)
      modifies this`config2
      ensures Value() == After(old(Value()), AdapterContact(value))
    {
      config2 := config2.(options := Set(config2.options, CONTACT, value));
    }
  }
}
