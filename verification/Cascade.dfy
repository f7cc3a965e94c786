/** The three layers of a schedule's configuration: schedule over template over defaults. */
module Cascades {
  import opened Options

  /** A tool's parameters: an object whose values are kept as text, or JSON of another shape. */
  datatype Json = Obj(fields: map<string, string>) | Other(text: string)

  type ToolConfig = map<string, Json>

  // ----- tool parameters -----

  /** The overlay's fields win; if either side is not an object the overlay stands alone. */
  function Merged(base: Json, overlay: Json): Json {
    if base.Obj? && overlay.Obj? then Obj(base.fields + overlay.fields) else overlay
  }

  method ShallowMerge(base: Json, overlay: Json) returns (merged: Json)
    ensures merged == Merged(base, overlay)
    ensures !base.Obj? || !overlay.Obj? ==> merged == overlay
    ensures base.Obj? && overlay.Obj? ==>
              && merged.Obj? && merged.fields.Keys == base.fields.Keys + overlay.fields.Keys
              && forall k :: k in merged.fields ==>
                   merged.fields[k] == if k in overlay.fields then overlay.fields[k] else base.fields[k]
  {
    if !base.Obj? || !overlay.Obj? {
      return overlay;
    }
    var fields := base.fields;
    var todo := overlay.fields.Keys;
    while todo != {}
      invariant todo <= overlay.fields.Keys
      invariant fields == base.fields + (overlay.fields - todo)
    {
      var k :| k in todo;
      fields := fields[k := overlay.fields[k]];
      todo := todo - {k};
    }
    merged := Obj(fields);
  }

  /** What the layers say about one tool, outermost last. */
  function LayersOf(layers: seq<ToolConfig>, name: string): (js: seq<Json>) {
    if layers == [] then []
    else
      var last := layers[|layers| - 1];
      LayersOf(layers[..|layers| - 1], name) + if name in last then [last[name]] else []
  }

  function Folded(js: seq<Json>): Json
    requires js != []
  {
    if |js| == 1 then js[0] else Merged(Folded(js[..|js| - 1]), js[|js| - 1])
  }

  /** One layer laid over what the earlier ones gave, tool by tool in arbitrary order. */
  method Overlay(config: ToolConfig, layer: ToolConfig) returns (out: ToolConfig)
    ensures out.Keys == config.Keys + layer.Keys
    ensures forall name :: name in out ==>
      out[name] == if name !in layer then config[name]
                   else if name in config then Merged(config[name], layer[name]) else layer[name]
  {
    out := config;
    var todo := layer.Keys;
    while todo != {}
      invariant todo <= layer.Keys && out.Keys == config.Keys + (layer.Keys - todo)
      invariant forall name :: name in out ==>
        out[name] == if name !in layer || name in todo then config[name]
                     else if name in config then Merged(config[name], layer[name]) else layer[name]
    {
      var name :| name in todo;
      if name in out {
        var merged := ShallowMerge(out[name], layer[name]);
        out := out[name := merged];
      } else {
        out := out[name := layer[name]];
      }
      todo := todo - {name};
    }
  }

  /** The layers that are there at all, innermost first. */
  function Layers(defaults: Option<ToolConfig>, template: Option<ToolConfig>,
                  schedule: Option<ToolConfig>): seq<ToolConfig> {
    (if defaults.Some? then [defaults.value] else []) + (if template.Some? then [template.value] else [])
    + (if schedule.Some? then [schedule.value] else [])
  }

  /** The tool's entry folds what the layers say about it; a tool no layer mentions has none. */
  ghost predicate FoldsAt(out: ToolConfig, layers: seq<ToolConfig>, name: string) {
    && (name in out <==> LayersOf(layers, name) != [])
    && (name in out ==> out[name] == Folded(LayersOf(layers, name)))
  }

  ghost predicate Folds(out: ToolConfig, layers: seq<ToolConfig>) {
    forall name :: FoldsAt(out, layers, name)
  }

  method ResolveToolConfig(defaults: Option<ToolConfig>, template: Option<ToolConfig>, schedule: Option<ToolConfig>)
    returns (out: ToolConfig)
    ensures Folds(out, Layers(defaults, template, schedule))
  {
    hide FoldsAt;
    var layers := Layers(defaults, template, schedule);
    out := map[];
    NoLayers();
    for i := 0 to |layers|
      invariant Folds(out, layers[..i])
    {
      ghost var sofar := out;
      out := Overlay(out, layers[i]);
      ghost var before, seen := layers[..i], layers[..i + 1];
      assert seen == before + [layers[i]];
      forall name ensures FoldsAt(out, seen, name) {
        assert FoldsAt(sofar, before, name);
        NextLayer(before, layers[i], sofar, out, name);
      }
    }
    assert layers[..|layers|] == layers;
  }

  lemma NoLayers()
    ensures Folds(map[], [])
  {}

  lemma NextLayer(inner: seq<ToolConfig>, layer: ToolConfig, sofar: ToolConfig, out: ToolConfig, name: string)
    requires FoldsAt(sofar, inner, name) && out.Keys == sofar.Keys + layer.Keys
    requires name in out ==>
      out[name] == if name !in layer then sofar[name]
                   else if name in sofar then Merged(sofar[name], layer[name]) else layer[name]
    ensures FoldsAt(out, inner + [layer], name)
  {
    assert (inner + [layer])[..|inner|] == inner;
    var js := LayersOf(inner, name);
    assert name in out <==> name in sofar || name in layer;
    if name in layer {
      assert (js + [layer[name]])[..|js|] == js;
    } else {
      assert js + [] == js;
    }
  }

  /** The objects at the end of the list, with nothing else between them. */
  function Trailing(js: seq<Json>): seq<map<string, string>> {
    if js == [] || js[|js| - 1].Other? then [] else Trailing(js[..|js| - 1]) + [js[|js| - 1].fields]
  }

  /** The outermost layer's value of a parameter. */
  function Lookup(objects: seq<map<string, string>>, key: string): Option<string> {
    if objects == [] then None
    else if key in objects[|objects| - 1] then Some(objects[|objects| - 1][key])
    else Lookup(objects[..|objects| - 1], key)
  }

  predicate Finds(fields: map<string, string>, objects: seq<map<string, string>>, key: string) {
    Lookup(objects, key) == if key in fields then Some(fields[key]) else None
  }

  /**
   Merging the layers is looking each parameter up from the outermost layer inwards. A layer that is not an
   object hides all below it, and stands as it is when it is the outermost.
   */
  lemma {:induction false} MergingIsLookup(js: seq<Json>)
    requires js != []
    ensures var last := js[|js| - 1];
      if last.Other? then Folded(js) == last
      else Folded(js).Obj? && forall key :: Finds(Folded(js).fields, Trailing(js), key)
  {
    var n := |js| - 1;
    hide Lookup, Finds;
    NothingFound();
    if js[n].Obj? {
      var inner := js[..n];
      assert Trailing(js) == Trailing(inner) + [js[n].fields];
      assert Trailing(js)[..|Trailing(inner)|] == Trailing(inner);
      if n > 0 {
        MergingIsLookup(inner);
      }
      if n > 0 && js[n - 1].Obj? {
        OverlayFinds(Folded(inner).fields, Trailing(inner), js[n].fields);
      } else {
        OverlayFinds(map[], [], js[n].fields);
        assert map[] + js[n].fields == js[n].fields && Trailing(inner) == [] && Folded(js) == js[n];
      }
    }
  }

  lemma NothingFound()
    ensures forall key :: Finds(map[], [], key)
  {}

  /** Laying an object over another looks there first. */
  lemma OverlayFinds(base: map<string, string>, objects: seq<map<string, string>>, overlay: map<string, string>)
    requires forall key :: Finds(base, objects, key)
    ensures forall key :: Finds(base + overlay, objects + [overlay], key)
  {
    assert (objects + [overlay])[..|objects|] == objects;
    forall key ensures Finds(base + overlay, objects + [overlay], key) {
      assert Finds(base, objects, key);
    }
  }

  /** The value in the schedule if it has one, else in the template, else in the defaults. */
  function FirstOf(a: Option<string>, b: Option<string>, c: Option<string>): Option<string> {
    if a.Some? then a else if b.Some? then b else c
  }

  function FieldOf(layer: Option<ToolConfig>, name: string, key: string): Option<string> {
    if layer.Some? && name in layer.value && layer.value[name].Obj? && key in layer.value[name].fields
    then Some(layer.value[name].fields[key]) else None
  }

  predicate Has(layer: Option<ToolConfig>, name: string) {
    layer.Some? && name in layer.value
  }

  predicate Objects(layer: Option<ToolConfig>) {
    layer.Some? ==> forall name :: name in layer.value ==> layer.value[name].Obj?
  }

  /** With objects throughout, the resolved configuration is a lookup per tool and per parameter. */
  lemma ResolvedIsLookup(defaults: Option<ToolConfig>, template: Option<ToolConfig>, schedule: Option<ToolConfig>,
                         out: ToolConfig, name: string, key: string)
    requires Objects(defaults) && Objects(template) && Objects(schedule)
    requires Folds(out, Layers(defaults, template, schedule))
    ensures name in out <==> Has(defaults, name) || Has(template, name) || Has(schedule, name)
    ensures FieldOf(Some(out), name, key)
         == FirstOf(FieldOf(schedule, name, key), FieldOf(template, name, key), FieldOf(defaults, name, key))
    ensures Has(schedule, name) && key in schedule.value[name].fields ==>
              key in out[name].fields && out[name].fields[key] == schedule.value[name].fields[key]
    ensures !(Has(schedule, name) && key in schedule.value[name].fields)
            && Has(template, name) && key in template.value[name].fields ==>
              key in out[name].fields && out[name].fields[key] == template.value[name].fields[key]
  {
    var js := Said(defaults, name) + Said(template, name) + Said(schedule, name);
    assert FoldsAt(out, Layers(defaults, template, schedule), name);
    ThreeLayers(defaults, template, schedule, name);
    if js != [] {
      MergingIsLookup(js);
      assert Finds(Folded(js).fields, Trailing(js), key);
      ObjectsOfThree(defaults, template, schedule, name, key);
    }
  }

  function Said(layer: Option<ToolConfig>, name: string): seq<Json> {
    if Has(layer, name) then [layer.value[name]] else []
  }

  lemma ThreeLayers(defaults: Option<ToolConfig>, template: Option<ToolConfig>, schedule: Option<ToolConfig>,
                    name: string)
    ensures LayersOf(Layers(defaults, template, schedule), name)
            == Said(defaults, name) + Said(template, name) + Said(schedule, name)
  {
    LayersAppend(if defaults.Some? then [defaults.value] else [], template, name);
    LayersAppend((if defaults.Some? then [defaults.value] else []) + (if template.Some? then [template.value] else []),
                 schedule, name);
  }

  lemma LayersAppend(inner: seq<ToolConfig>, outer: Option<ToolConfig>, name: string)
    ensures LayersOf(inner + (if outer.Some? then [outer.value] else []), name)
            == LayersOf(inner, name) + Said(outer, name)
  {
    if outer.Some? {
      assert (inner + [outer.value])[..|inner|] == inner;
    } else {
      assert inner + [] == inner;
    }
  }

  lemma ObjectsOfThree(defaults: Option<ToolConfig>, template: Option<ToolConfig>, schedule: Option<ToolConfig>,
                       name: string, key: string)
    requires Objects(defaults) && Objects(template) && Objects(schedule)
    ensures Lookup(Trailing(Said(defaults, name) + Said(template, name) + Said(schedule, name)), key)
         == FirstOf(FieldOf(schedule, name, key), FieldOf(template, name, key), FieldOf(defaults, name, key))
  {
    LookupAppend([], defaults, name, key);
    LookupAppend(Said(defaults, name), template, name, key);
    LookupAppend(Said(defaults, name) + Said(template, name), schedule, name, key);
    assert [] + Said(defaults, name) == Said(defaults, name);
  }

  lemma LookupAppend(inner: seq<Json>, outer: Option<ToolConfig>, name: string, key: string)
    requires Objects(outer)
    ensures Lookup(Trailing(inner + Said(outer, name)), key)
         == if FieldOf(outer, name, key).Some? then FieldOf(outer, name, key) else Lookup(Trailing(inner), key)
  {
    if Has(outer, name) {
      var js := inner + [outer.value[name]];
      assert js[..|inner|] == inner;
      assert Trailing(js)[..|Trailing(js)| - 1] == Trailing(inner);
    } else {
      assert inner + [] == inner;
    }
  }

  // ----- recurrence and timezone -----

  /** The fields of a schedule and of a template that the cascade picks from; absent ones are empty. */
  datatype Schedule =
    Schedule(id: string, target: string, dtStart: Option<int>, rrule: string, timezone: string, overrides: seq<string>)

  datatype Template = Template(rrule: string, timezone: string)

  function PickString(overridden: bool, schedule: string, template: string, default: string): string {
    if overridden && schedule != "" then schedule
    else if template != "" then template
    else if default != "" then default
    else schedule
  }

  /** The effective recurrence and timezone, or None when one of them is nowhere given. */
  function Effective(s: Schedule, t: Option<Template>, defaults: Template): Option<(string, string)> {
    var rrule := PickString("rrule" in s.overrides, s.rrule, if t.None? then "" else t.value.rrule, defaults.rrule);
    var tz := PickString("timezone" in s.overrides, s.timezone,
                         if t.None? then "" else t.value.timezone, defaults.timezone);
    if rrule == "" || tz == "" then None else Some((rrule, tz))
  }

  /**
   Where the two fields come from: what the schedule overrides with a value is its own; else the template's value
   counts, then the default, and the schedule's own at last. Only what no layer gives is unresolved.
   */
  lemma EffectiveMeans(s: Schedule, t: Option<Template>, defaults: Template)
    ensures Effective(s, t, defaults).None? <==>
              || (s.rrule == "" && (t.None? || t.value.rrule == "") && defaults.rrule == "")
              || (s.timezone == "" && (t.None? || t.value.timezone == "") && defaults.timezone == "")
    ensures Effective(s, t, defaults).Some? ==>
      var (rrule, tz) := Effective(s, t, defaults).value;
      && ("rrule" in s.overrides && s.rrule != "" ==> rrule == s.rrule)
      && ("rrule" !in s.overrides && t.Some? && t.value.rrule != "" ==> rrule == t.value.rrule)
      && (t.None? && "rrule" !in s.overrides ==> rrule == if defaults.rrule != "" then defaults.rrule else s.rrule)
      && ("timezone" in s.overrides && s.timezone != "" ==> tz == s.timezone)
      && ("timezone" !in s.overrides && t.Some? && t.value.timezone != "" ==> tz == t.value.timezone)
      && (t.None? && "timezone" !in s.overrides ==>
            tz == if defaults.timezone != "" then defaults.timezone else s.timezone)
      && (s.rrule == "" && t.Some? ==> rrule == if t.value.rrule != "" then t.value.rrule else defaults.rrule)
      && (s.timezone == "" && t.Some? ==> tz == if t.value.timezone != "" then t.value.timezone else defaults.timezone)
  {}

  /** The recompute after a template change passes this schedule by. */
  predicate Skipped(s: Schedule) {
    "rrule" in s.overrides || "timezone" in s.overrides
  }

  /** The schedule overrides both fields, with values. */
  predicate OverridesBoth(s: Schedule) {
    "rrule" in s.overrides && s.rrule != "" && "timezone" in s.overrides && s.timezone != ""
  }

  /** No template makes a difference to the schedule's recurrence and timezone. */
  ghost predicate Independent(s: Schedule, defaults: Template) {
    forall t: Template, u: Template :: Effective(s, Some(t), defaults) == Effective(s, Some(u), defaults)
  }

  predicate Stored(t: Template) {
    t.rrule != "" && t.timezone != ""
  }

  /** The same among the templates the store accepts. */
  ghost predicate IndependentWhenStored(s: Schedule, defaults: Template) {
    forall t: Template, u: Template | Stored(t) && Stored(u) ::
        Effective(s, Some(t), defaults) == Effective(s, Some(u), defaults)
  }

  /**
   A schedule's cadence is independent of its template exactly when it overrides both fields with values. Every
   such schedule is skipped, rightly; any other that is skipped may miss the change the recompute passes by.
   */
  lemma IndependentMeansBoth(s: Schedule, defaults: Template)
    ensures Independent(s, defaults) <==> OverridesBoth(s)
    ensures IndependentWhenStored(s, defaults) <==> OverridesBoth(s)
    ensures OverridesBoth(s) ==> Skipped(s)
    ensures Skipped(s) <==> exists name :: name in s.overrides && (name == "rrule" || name == "timezone")
  {
    if !OverridesBoth(s) {
      var t, u := Template("a", "a"), Template("b", "b");
      assert Stored(t) && Stored(u);
      assert Effective(s, Some(t), defaults) != Effective(s, Some(u), defaults);
    }
  }

  /** The two field names are two. */
  lemma NamesDiffer()
    ensures "rrule" != "timezone"
  {
    assert |"rrule"| != |"timezone"|;
  }

  /**
   A schedule that overrides its recurrence alone is skipped, yet moves with the template's timezone: for every
   schedule and template the stores accept, which is with both fields filled in.
   */
  lemma RuleOverrideIsNotEnough(s: Schedule, tr: string, tz1: string, tz2: string, defaults: Template)
    requires s.rrule != "" && s.timezone != "" && s.overrides == ["rrule"]
    requires tr != "" && tz1 != "" && tz2 != "" && tz1 != tz2
    ensures Skipped(s)
    ensures Effective(s, Some(Template(tr, tz1)), defaults) == Some((s.rrule, tz1))
    ensures Effective(s, Some(Template(tr, tz2)), defaults) == Some((s.rrule, tz2))
  {
    NamesDiffer();
  }

  /** One that overrides its timezone alone is skipped, yet moves with the template's recurrence. */
  lemma ZoneOverrideIsNotEnough(s: Schedule, tr1: string, tr2: string, tz: string, defaults: Template)
    requires s.rrule != "" && s.timezone != "" && s.overrides == ["timezone"]
    requires tr1 != "" && tr2 != "" && tr1 != tr2 && tz != ""
    ensures Skipped(s)
    ensures Effective(s, Some(Template(tr1, tz)), defaults) == Some((tr1, s.timezone))
    ensures Effective(s, Some(Template(tr2, tz)), defaults) == Some((tr2, s.timezone))
  {
    NamesDiffer();
  }
}
