/** The plugin editor component: construction, the read-only flag, the
    `onChange` chain and what a render composes. */
module Editor {
  import opened JsValues
  import opened Plugins
  import opened PluginHooks
  import opened Resolvers
  import opened Accessibility
  import opened Calls
  import opened EventHooks
  import opened FnHooks

  /** The editor state after each plugin's `onChange`, in plugin order;
      plugins without an `onChange` leave the state as it is. */
  function ThreadState(plugins: seq<Plugin>, s: EditorState): (r: EditorState)
    ensures (forall i :: 0 <= i < |plugins| ==> plugins[i].onChange.None?) ==> r == s
  {
    if plugins == [] then s
    else
      var before := ThreadState(plugins[..|plugins| - 1], s);
      match plugins[|plugins| - 1].onChange
      case None => before
      case Some(f) => f(before)
  }

  /** Threading through two lists of plugins is threading through the first,
      then through the second. */
  lemma {:induction false} ThreadStateAppend(ps: seq<Plugin>, qs: seq<Plugin>, s: EditorState)
    ensures ThreadState(ps + qs, s) == ThreadState(qs, ThreadState(ps, s))
  {
    if qs == [] {
      assert ps + qs == ps;
    } else {
      var q := qs[..|qs| - 1];
      ThreadStateAppend(ps, q, s);
      assert (ps + qs)[..|ps + qs| - 1] == ps + q;
    }
  }

  /** What one render hands to the draft-js editor besides the props. */
  datatype Composition = Composition(
    pluginHooks: map<string, Hook>,
    customStyleMap: map<string, Value>,
    accessibilityProps: Resolved,
    readOnly: Value)

  /** A call of a composed hook taken from the hook table, with one result
      per hook source: an event hook gives `true` iff some plugin handled
      the event, a function hook the value its name's policy merges. */
  method CallHook(h: Hook, results: seq<Option<Value>>) returns (result: Value, invoked: seq<nat>)
    requires |results| == |h.sources|
    ensures forall k :: k in invoked ==> k < |h.sources|
    ensures h.EventHook? ==>
      result == Bool(exists i :: 0 <= i < |results| && Handles(results[i])) &&
      invoked == Implementing(results, ChainLength(results))
    ensures h.FnHook? ==>
      result == FnHookResult(PolicyOf(h.methodName), results) &&
      invoked == Implementing(results, if PolicyOf(h.methodName) == FirstDefined then DefaultReach(results) else |results|)
  {
    match h
    case EventHook(_, sources) =>
      var handled;
      handled, invoked := CallEventHook(sources, results);
      result := Bool(handled);
    case FnHook(methodName, sources) =>
      result, invoked := CallFnHook(methodName, sources, results);
  }

  class PluginEditor {
    const props: EditorProps
    const defaultKeyBinding: Plugin
    /** The hook sources, fixed at construction. */
    const plugins: seq<Plugin>
    /** The component state's read-only flag (`undefined` until it is set). */
    var readOnly: Value
    /** The indices into `plugins` whose `initialize` ran, in the order they ran. */
    var initialized: seq<nat>

    /** Every hook source with an `initialize` function is initialized once,
        in source order. */
    constructor (props: EditorProps, defaultKeyBinding: Plugin)
      ensures this.props == props && this.defaultKeyBinding == defaultKeyBinding
      ensures plugins == HookSources(props, defaultKeyBinding)
      ensures initialized == Initializing(plugins, |plugins|)
      ensures readOnly == Undefined
    {
      var sources := HookSources(props, defaultKeyBinding);
      var log: seq<nat> := [];
      var i := 0;
      while i < |sources|
        invariant 0 <= i <= |sources|
        invariant log == Initializing(sources, i)
      {
        if sources[i].initialize {
          log := log + [i];
        }
        i := i + 1;
      }
      this.props := props;
      this.defaultKeyBinding := defaultKeyBinding;
      plugins := sources;
      readOnly := Undefined;
      initialized := log;
    }

    /** `setReadOnly`: the state changes, and a re-render is scheduled, only
        when the new flag differs from the current one. */
    method SetReadOnly(newReadOnly: Value) returns (rerender: bool)
      modifies this
      ensures readOnly == newReadOnly
      ensures rerender <==> old(readOnly) != newReadOnly
      ensures initialized == old(initialized)
    {
      rerender := newReadOnly != readOnly;
      if rerender {
        readOnly := newReadOnly;
      }
    }

    /** `onChange`: nothing while read-only; otherwise the state is threaded
        through the resolved plugins' `onChange` and the result is what
        `props.onChange` receives (None: it is not called). */
    method OnChange(editorState: EditorState) returns (delivered: Option<EditorState>)
      ensures Truthy(readOnly) ==> delivered == None
      ensures !Truthy(readOnly) && props.own.onChange.Some? ==>
        delivered == Some(ThreadState(ResolvePlugins(props, defaultKeyBinding), editorState))
      ensures props.own.onChange.None? ==> delivered == None
    {
      if Truthy(readOnly) {
        return None;
      }
      var newEditorState := editorState;
      var ps := ResolvePlugins(props, defaultKeyBinding);
      var i := 0;
      while i < |ps|
        invariant 0 <= i <= |ps|
        invariant newEditorState == ThreadState(ps[..i], editorState)
      {
        assert ps[..i + 1][..i] == ps[..i];
        match ps[i].onChange {
          case Some(f) => newEditorState := f(newEditorState);
          case None =>
        }
        i := i + 1;
      }
      assert ps[..i] == ps;
      delivered := if props.own.onChange.Some? then Some(newEditorState) else None;
    }

    /** What `render` computes: the composed hook table, every hook running
        over all hook sources (the props first); the merged style map; the
        accessibility props as the program merges them, from what each
        source's `getAccessibilityProps` returns during this render
        (`accessibility[i]`, None when source `i` has no such function); and
        the effective read-only flag. */
    method Render(accessibility: seq<Option<Value>>) returns (c: Composition)
      requires |accessibility| == |HookSources(props, defaultKeyBinding)|
      ensures forall name :: name in c.pluginHooks <==>
        name in AllKeys(HookSources(props, defaultKeyBinding)) && KindOf(name) != Passthrough
      ensures forall name :: name in c.pluginHooks ==>
        c.pluginHooks[name] == if KindOf(name) == EventKind then EventHook(name, HookSources(props, defaultKeyBinding))
                               else FnHook(name, HookSources(props, defaultKeyBinding))
      ensures c.customStyleMap == EditorCustomStyleMap(props)
      ensures c.accessibilityProps == Resolve(accessibility, |accessibility|)
      ensures c.readOnly == if props.readOnly then Bool(true) else readOnly
      ensures Truthy(c.readOnly) <==> props.readOnly || Truthy(readOnly)
    {
      var sources := HookSources(props, defaultKeyBinding);
      var pluginHooks := CreatePluginHooks(sources);
      var accessibilityProps := ResolveAccessibilityProps(accessibility);
      c := Composition(
        pluginHooks,
        EditorCustomStyleMap(props),
        accessibilityProps,
        if props.readOnly then Bool(true) else readOnly);
    }
  }

  /** The focus plugin sends `false` or `undefined` (an unset active block):
      after `setReadOnly(false)`, `setReadOnly(undefined)` is a change and
      re-renders again, and the flag is then `undefined`. */
  method ReadOnlyFalseThenUndefined(e: PluginEditor) returns (second: bool)
    modifies e
    ensures second && e.readOnly == Undefined
  {
    var first := e.SetReadOnly(Bool(false));
    second := e.SetReadOnly(Undefined);
  }
}
