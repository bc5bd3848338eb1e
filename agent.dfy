/**
 * The agent object: the registry of components built once per request and
 * the accessors every component uses to read and write the 'mrwp_agent'
 * option array.
 */
module AgentCore {
  import opened Php
  import Wp

  /** The components `init_components` registers. */
  datatype Component =
    | SecurityComponent
    | StatusComponent
    | MaintenanceComponent
    | DebugComponent
    | EmailComponent
    | RestComponent
    | SettingsComponent

  /** What an action handler returns: `['ok' => true, 'action' => …, 'state' => …]` or `['ok' => false, 'error' => …]`. */
  datatype ActionResult =
    | Done(action: string, state: seq<(string, Value)>)
    | Failed(error: string)
  {
    predicate Ok() {
      Done?
    }
  }

  /** `isset($options[$key]) ? $options[$key] : $default`: an unset or null entry reads as the default. */
  function OptionOr(opts: map<string, Value>, key: string, fallback: Value): Value
  {
    if key in opts && opts[key] != Null then opts[key] else fallback
  }

  /** After writing key k, reading k gives the value written (the default for null) and every other key reads as before. */
  lemma ReadAfterWrite(opts: map<string, Value>, k: string, v: Value, key: string, fallback: Value)
    ensures OptionOr(opts[k := v], key, fallback) ==
      if key == k then (if v == Null then fallback else v) else OptionOr(opts, key, fallback)
  {
  }

  /**
   * The read-negate-write of `toggle_maintenance` and `toggle_debug`: the key
   * becomes the boolean negation of what `get_option($key, false)` reads.
   */
  function Flipped(opts: map<string, Value>, key: string): (r: map<string, Value>)
    ensures r.Keys == opts.Keys + {key}
    ensures r[key] == Bool(!Truthy(OptionOr(opts, key, Bool(false))))
    ensures forall k :: k in opts && k != key ==> r[k] == opts[k]
  {
    opts[key := Bool(!Truthy(OptionOr(opts, key, Bool(false))))]
  }

  /**
   * Two flips restore what the key reads as; they restore the stored value
   * itself when it was a boolean, and otherwise leave the key holding the
   * boolean with the same truth value.
   */
  lemma FlipTwice(opts: map<string, Value>, key: string)
    ensures Truthy(OptionOr(Flipped(Flipped(opts, key), key), key, Bool(false))) == Truthy(OptionOr(opts, key, Bool(false)))
    ensures key in opts && opts[key].Bool? ==> Flipped(Flipped(opts, key), key) == opts
    ensures Flipped(Flipped(opts, key), key) == opts[key := Bool(Truthy(OptionOr(opts, key, Bool(false))))]
  {
    var once := Flipped(opts, key);
    var twice := Flipped(once, key);
    assert twice == once[key := Bool(!Truthy(once[key]))];
    if key in opts && opts[key].Bool? {
      assert twice == opts;
    }
  }

  const ComponentNames: set<string> := {"security", "status", "maintenance", "debug", "email", "rest"}

  class Agent {
    var components: map<string, Component>
    const options: Wp.Options

    /** The six components always; the settings page only on admin screens. */
    constructor (options: Wp.Options, isAdmin: bool)
      ensures this.options == options
      ensures components.Keys == ComponentNames + (if isAdmin then {"settings"} else {})
      ensures components["security"] == SecurityComponent && components["status"] == StatusComponent
      ensures components["maintenance"] == MaintenanceComponent && components["debug"] == DebugComponent
      ensures components["email"] == EmailComponent && components["rest"] == RestComponent
      ensures isAdmin ==> components["settings"] == SettingsComponent
    {
      this.options := options;
      var registry: map<string, Component> := map[];
      registry := registry["security" := SecurityComponent];
      registry := registry["status" := StatusComponent];
      registry := registry["maintenance" := MaintenanceComponent];
      registry := registry["debug" := DebugComponent];
      registry := registry["email" := EmailComponent];
      registry := registry["rest" := RestComponent];
      if isAdmin {
        registry := registry["settings" := SettingsComponent];
      }
      components := registry;
    }

    /** `get_component($name)`: null for a name that was never registered. */
    function GetComponent(name: string): (r: Option<Component>)
      reads this
      ensures r.Some? <==> name in components
      ensures r.Some? ==> r.value == components[name]
    {
      if name in components then Some(components[name]) else None
    }

    /** `get_options()`. */
    function GetOptions(): (opts: map<string, Value>)
      reads options`agent
      ensures options.agent.Some? ==> opts == options.agent.value
      ensures options.agent.None? ==> opts == map[]
    {
      options.AgentOptions()
    }

    /** `get_option($key, $default)`. */
    function GetOption(key: string, fallback: Value): (v: Value)
      reads options`agent
      ensures key in GetOptions() && GetOptions()[key] != Null ==> v == GetOptions()[key]
      ensures key !in GetOptions() || GetOptions()[key] == Null ==> v == fallback
    {
      OptionOr(GetOptions(), key, fallback)
    }

    /** `update_options($options)`: the store's write result. */
    method UpdateOptions(value: map<string, Value>) returns (changed: bool)
      modifies options`agent
      ensures GetOptions() == value
      ensures changed <==> old(options.agent) != Some(value)
    {
      changed := options.UpdateAgent(value);
    }

    /**
     * `set_option($key, $value)`: read, overwrite one key, write back. The key
     * reads as the value written and every other key as before.
     */
    method SetOption(key: string, value: Value) returns (changed: bool)
      modifies options`agent
      ensures GetOptions() == old(GetOptions())[key := value]
      ensures changed <==> old(options.agent) != Some(old(GetOptions())[key := value])
      ensures forall d :: GetOption(key, d) == if value == Null then d else value
      ensures forall k, d :: k != key ==> GetOption(k, d) == old(GetOption(k, d))
    {
      var opts := GetOptions();
      opts := opts[key := value];
      changed := UpdateOptions(opts);
    }
  }

  /** `Agent::instance()`: the static slot that holds the one agent of a request. */
  class AgentSlot {
    var instance: Agent?

    constructor ()
      ensures instance == null
    {
      instance := null;
    }

    method Instance(options: Wp.Options, isAdmin: bool) returns (a: Agent)
      modifies this
      ensures instance == a
      ensures old(instance) != null ==> a == old(instance)
      ensures old(instance) == null ==> fresh(a) && a.options == options
      ensures old(instance) == null ==> a.components.Keys == ComponentNames + (if isAdmin then {"settings"} else {})
    {
      if instance == null {
        instance := new Agent(options, isAdmin);
      }
      a := instance;
    }
  }
}
