/** The configuration snapshot a controller is built from: defaults, saved settings, caller options. */
module Config {

  /** A configuration value, uninterpreted except for the type it has. */
  datatype Value =
    | Flag(b: bool)
    | Number(n: int)
    | Text(s: string)
    | List(elements: seq<Value>)

  /**
   * The built-in option table. On its own it already gives the live-state options their
   * types, and it holds no `item`, so without one from elsewhere no entry starts selected.
   */
  function Defaults(): (r: map<string, Value>)
    ensures WellTyped(r)
    ensures "item" !in r
  {
    map[
      "autostart" := Flag(false),
      "controls" := Flag(true),
      "dragging" := Flag(false),
      "fullscreen" := Flag(false),
      "height" := Number(320),
      "mobilecontrols" := Flag(false),
      "mute" := Flag(false),
      "playlist" := List([]),
      "playlistposition" := Text("none"),
      "playlistsize" := Number(180),
      "playlistlayout" := Text("extended"),
      "repeat" := Flag(false),
      "stretching" := Text("uniform"),
      "width" := Number(480),
      "volume" := Number(90)
    ]
  }

  /**
   * Copies the three sources into one map, later sources overriding earlier ones:
   * saved settings override defaults, caller options override both.
   */
  function Merge(defaults: map<string, Value>, saved: map<string, Value>, options: map<string, Value>): (r: map<string, Value>)
    ensures r.Keys == defaults.Keys + saved.Keys + options.Keys
    ensures forall k :: k in options ==> r[k] == options[k]
    ensures forall k :: k in saved && k !in options ==> r[k] == saved[k]
    ensures forall k :: k in defaults && k !in saved && k !in options ==> r[k] == defaults[k]
  {
    defaults + saved + options
  }

  /** Every value of `config` passed through the normalisation step `serialize`. */
  function Serialized(config: map<string, Value>, serialize: Value -> Value): (r: map<string, Value>)
    ensures r.Keys == config.Keys
    ensures forall k :: k in config ==> r[k] == serialize(config[k])
  {
    map k | k in config :: serialize(config[k])
  }

  /** Rewrites every entry of the map in turn through `serialize`, keeping its key. */
  method ParseConfig(config: map<string, Value>, serialize: Value -> Value) returns (r: map<string, Value>)
    ensures r == Serialized(config, serialize)
  {
    r := config;
    var pending := config.Keys;
    while pending != {}
      invariant pending <= config.Keys
      invariant r.Keys == config.Keys
      invariant forall k :: k in pending ==> r[k] == config[k]
      invariant forall k :: k in config && k !in pending ==> r[k] == serialize(config[k])
      decreases pending
    {
      var k :| k in pending;
      r := r[k := serialize(r[k])];
      pending := pending - {k};
    }
  }

  /** The options the controller copies into live state hold values of the type it uses them as. */
  predicate WellTyped(config: map<string, Value>) {
    && "volume" in config && config["volume"].Number?
    && "mute" in config && config["mute"].Flag?
    && "fullscreen" in config && config["fullscreen"].Flag?
    && "dragging" in config && config["dragging"].Flag?
  }
}
