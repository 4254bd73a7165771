/** `resolveDecorators` and `resolveCustomStyleMap`. */
module Resolvers {
  import opened JsValues
  import opened Spread
  import opened Plugins

  /** The plugins' decorator lists that are not `undefined`, flattened in plugin order. */
  function PluginDecorators(plugins: seq<Plugin>): seq<Value> {
    if plugins == [] then []
    else PluginDecorators(plugins[..|plugins| - 1]) + plugins[|plugins| - 1].decorators.GetOr([])
  }

  /** The props' own decorators (`[]` by default) followed by those of every
      plugin that has a decorator list, flattened in plugin order. It reads
      `props.plugins`, so the default key-binding plugin contributes nothing. */
  function ResolveDecorators(decorators: seq<Value>, plugins: seq<Plugin>): (r: seq<Value>)
    ensures |r| >= |decorators| && r[..|decorators|] == decorators
  {
    decorators + PluginDecorators(plugins)
  }

  /** Adding plugins appends their decorators after everything before them. */
  lemma {:induction false} ResolveDecoratorsAppend(decorators: seq<Value>, plugins: seq<Plugin>, more: seq<Plugin>)
    ensures ResolveDecorators(decorators, plugins + more) ==
            ResolveDecorators(decorators, plugins) + PluginDecorators(more)
  {
    if more == [] {
      assert plugins + more == plugins;
    } else {
      var m := more[..|more| - 1];
      ResolveDecoratorsAppend(decorators, plugins, m);
      assert (plugins + more)[..|plugins + more| - 1] == plugins + m;
    }
  }

  /** A decorator is in the result iff it is in the props' list or in the
      list of some plugin. */
  lemma {:induction false} ResolveDecoratorsMembers(decorators: seq<Value>, plugins: seq<Plugin>)
    ensures forall d :: d in ResolveDecorators(decorators, plugins) <==>
      d in decorators ||
      exists i :: 0 <= i < |plugins| && plugins[i].decorators.Some? && d in plugins[i].decorators.value
  {
    if plugins != [] {
      var p := plugins[..|plugins| - 1];
      ResolveDecoratorsMembers(decorators, p);
      assert forall i :: 0 <= i < |p| ==> p[i] == plugins[i];
    }
  }

  /** `[d0]` with plugins contributing `[d1]`, nothing, `[]` and `[d2]` gives `[d0, d1, d2]`. */
  lemma ResolveDecoratorsExample(d0: Value, d1: Value, d2: Value, p: Plugin)
    ensures ResolveDecorators([d0], [p.(decorators := Some([d1])), p.(decorators := None),
                                     p.(decorators := Some([])), p.(decorators := Some([d2]))])
            == [d0, d1, d2]
  {
    var ps := [p.(decorators := Some([d1])), p.(decorators := None),
               p.(decorators := Some([])), p.(decorators := Some([d2]))];
    assert ps[..1][..0] == [];
    assert PluginDecorators(ps[..1]) == [d1];
    assert ps[..2][..1] == ps[..1];
    assert PluginDecorators(ps[..2]) == [d1];
    assert ps[..3][..2] == ps[..2];
    assert PluginDecorators(ps[..3]) == [d1];
    assert ps[..3] == ps[..4][..3] && ps[..4] == ps;
    assert PluginDecorators(ps) == [d1, d2];
  }

  /** `resolveDecorators` as the editor calls it: on `props.decorators` and
      `props.plugins`. The resolved plugin list is not consulted, so the
      default key-binding plugin never contributes. */
  function EditorDecorators(props: EditorProps): (r: seq<Value>)
    ensures forall d :: d in r <==>
      d in props.own.decorators.GetOr([]) ||
      exists i :: 0 <= i < |props.plugins| && props.plugins[i].decorators.Some? && d in props.plugins[i].decorators.value
  {
    ResolveDecoratorsMembers(props.own.decorators.GetOr([]), props.plugins);
    ResolveDecorators(props.own.decorators.GetOr([]), props.plugins)
  }

  /** Switching the default key bindings on or off leaves the decorators as they are. */
  lemma EditorDecoratorsIgnoreKeyBindings(props: EditorProps, on: bool)
    ensures EditorDecorators(props.(defaultKeyBindings := on)) == EditorDecorators(props)
  {
  }

  /** The plugins' style maps as layers of the merge (`undefined` ones are skipped). */
  function StyleLayers(plugins: seq<Plugin>): (r: seq<Option<map<string, Value>>>)
    ensures |r| == |plugins| && forall i :: 0 <= i < |plugins| ==> r[i] == plugins[i].customStyleMap
  {
    seq(|plugins|, i requires 0 <= i < |plugins| => plugins[i].customStyleMap)
  }

  /** The style maps of the plugins that have one, then the props' own map,
      merged left to right with later maps overriding earlier ones. */
  function ResolveCustomStyleMap(plugins: seq<Plugin>, customStyleMap: map<string, Value>): (r: map<string, Value>)
    ensures r == Overlay(StyleLayers(plugins)) + customStyleMap
  {
    OverlaySnoc(StyleLayers(plugins), Some(customStyleMap));
    Overlay(StyleLayers(plugins) + [Some(customStyleMap)])
  }

  /** `resolveCustomStyleMap` as the editor calls it: on `props.plugins` and
      `props.customStyleMap` (`{}` by default); the default key-binding
      plugin is not consulted. */
  function EditorCustomStyleMap(props: EditorProps): (r: map<string, Value>)
    ensures forall key :: key in props.own.customStyleMap.GetOr(map[]) ==>
      key in r && r[key] == props.own.customStyleMap.GetOr(map[])[key]
  {
    ResolveCustomStyleMap(props.plugins, props.own.customStyleMap.GetOr(map[]))
  }

  /** Switching the default key bindings on or off leaves the style map as it is. */
  lemma EditorCustomStyleMapIgnoresKeyBindings(props: EditorProps, on: bool)
    ensures EditorCustomStyleMap(props.(defaultKeyBindings := on)) == EditorCustomStyleMap(props)
  {
  }

  /** The props' own style map overrides every plugin; among plugins the
      last one defining a style wins; a style is present iff some source has it. */
  lemma CustomStyleMapPrecedence(plugins: seq<Plugin>, customStyleMap: map<string, Value>, key: string)
    ensures key in ResolveCustomStyleMap(plugins, customStyleMap) <==>
      key in customStyleMap || exists i :: 0 <= i < |plugins| && Provides(plugins[i].customStyleMap, key)
    ensures key in customStyleMap ==> ResolveCustomStyleMap(plugins, customStyleMap)[key] == customStyleMap[key]
    ensures key !in customStyleMap && key in ResolveCustomStyleMap(plugins, customStyleMap) ==>
      exists j :: LastProvider(StyleLayers(plugins), key, j) &&
        ResolveCustomStyleMap(plugins, customStyleMap)[key] == plugins[j].customStyleMap.value[key]
  {
    var layers := StyleLayers(plugins);
    OverlaySnoc(layers, Some(customStyleMap));
    OverlayLaterWins(layers, key);
  }
}
