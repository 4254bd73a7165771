/** Plugins and the editor's props: the attributes the editor reads from them. */
module Plugins {
  import opened JsValues

  /** A plugin object. `keys` is `Object.keys(plugin)` in its order; the other
      fields are the static attributes the editor reads directly (None stands
      for an attribute that is `undefined` or, for callables, not a function). */
  datatype Plugin = Plugin(
    keys: seq<string>,
    initialize: bool,
    onChange: Option<EditorState -> EditorState>,
    decorators: Option<seq<Value>>,
    customStyleMap: Option<map<string, Value>>)

  /** The editor's props. `own` is the props object itself, which the editor
      also treats as a plugin (it comes first in every hook chain);
      `own.customStyleMap`, `own.decorators` and `own.onChange` are
      `props.customStyleMap`, `props.decorators` and `props.onChange`. */
  datatype EditorProps = EditorProps(
    own: Plugin,
    plugins: seq<Plugin>,
    defaultKeyBindings: bool,
    readOnly: bool)

  /** `resolvePlugins`: a copy of `props.plugins`, followed by the default
      key-binding plugin when `defaultKeyBindings` is set. */
  function ResolvePlugins(props: EditorProps, defaultKeyBinding: Plugin): (r: seq<Plugin>)
    ensures |r| == |props.plugins| + (if props.defaultKeyBindings then 1 else 0)
    ensures r[..|props.plugins|] == props.plugins
    ensures props.defaultKeyBindings ==> r[|props.plugins|] == defaultKeyBinding
  {
    props.plugins + if props.defaultKeyBindings then [defaultKeyBinding] else []
  }

  /** The editor's own props followed by the resolved plugins: the hook
      sources in priority order. */
  function HookSources(props: EditorProps, defaultKeyBinding: Plugin): (r: seq<Plugin>)
    ensures |r| >= 1 && r[0] == props.own
    ensures r[1..] == ResolvePlugins(props, defaultKeyBinding)
  {
    [props.own] + ResolvePlugins(props, defaultKeyBinding)
  }

  /** The indices `i < n` of the sources that have an `initialize` function, in order. */
  function Initializing(sources: seq<Plugin>, n: nat): (r: seq<nat>)
    requires n <= |sources|
  {
    if n == 0 then []
    else Initializing(sources, n - 1) + if sources[n - 1].initialize then [n - 1] else []
  }

  lemma {:induction false} InitializingExactlyOnce(sources: seq<Plugin>, n: nat)
    requires n <= |sources|
    ensures forall i :: i in Initializing(sources, n) <==> 0 <= i < n && sources[i].initialize
    ensures forall a, b :: 0 <= a < b < |Initializing(sources, n)| ==>
              Initializing(sources, n)[a] < Initializing(sources, n)[b]
  {
    if n > 0 {
      InitializingExactlyOnce(sources, n - 1);
      var prev := Initializing(sources, n - 1);
      var last: seq<nat> := if sources[n - 1].initialize then [n - 1] else [];
      assert Initializing(sources, n) == prev + last;
      forall a | 0 <= a < |prev| ensures prev[a] < n - 1 {
        assert prev[a] in prev;
      }
    }
  }
}
