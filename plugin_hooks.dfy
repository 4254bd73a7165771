/** `createPluginHooks`: which attribute names of the hook sources become
    composed hooks, and which composer each one gets. */
module PluginHooks {
  import opened HookNames
  import opened Plugins

  /** How a function hook merges the results of the plugins. */
  datatype FnPolicy = FirstDefined | BlockRenderer | BlockStyle

  /** An entry of the composed hook table: the closure `createEventHooks` or
      `createFnHooks` returns, over the hook name and the hook sources it
      runs over, in the order it tries them. */
  datatype Hook = EventHook(methodName: string, sources: seq<Plugin>) | FnHook(methodName: string, sources: seq<Plugin>)

  /** `createFnHooks` special-cases two hook names. */
  function PolicyOf(name: string): (r: FnPolicy)
    ensures r == BlockRenderer <==> name == "blockRendererFn"
    ensures r == BlockStyle <==> name == "blockStyleFn"
  {
    if name == "blockRendererFn" then BlockRenderer
    else if name == "blockStyleFn" then BlockStyle
    else FirstDefined
  }

  datatype HookKind = EventKind | FnKind | Passthrough

  /** The kind of an attribute name: `onChange` is never a hook, the event test
      is tried before the function test, everything else passes through. */
  function KindOf(name: string): (r: HookKind)
    ensures r == EventKind <==> name != "onChange" && ("on" <= name || "handle" <= name)
    ensures r == FnKind <==>
      name != "onChange" && !("on" <= name || "handle" <= name) &&
      (|name| == 1 ||
       (|name| >= 2 && name[|name| - 2..] == "Fn" &&
        forall i :: 0 <= i < |name| - 2 ==> !OccursAt(name, "Fn", i)))
  {
    EventHookKeyIsPrefix(name);
    FnHookKeyShape(name);
    if name == "onChange" then Passthrough
    else if IsEventHookKey(name) then EventKind
    else if IsFnHookKey(name) then FnKind
    else Passthrough
  }

  /** The two key lists `eventHookKeys` and `fnHookKeys`. */
  datatype HookKeys = HookKeys(events: seq<string>, fns: seq<string>)

  predicate Distinct(s: seq<string>) {
    forall i, j :: 0 <= i < j < |s| ==> s[i] != s[j]
  }

  /** What the classification keeps true of its key lists: each is
      duplicate-free and holds only names of its own kind (so they share no
      name). */
  predicate WellFormed(k: HookKeys) {
    Distinct(k.events) && Distinct(k.fns) &&
    (forall x :: x in k.events ==> KindOf(x) == EventKind) &&
    (forall x :: x in k.fns ==> KindOf(x) == FnKind)
  }

  lemma DistinctSnoc(s: seq<string>, x: string)
    ensures Distinct(s) && x !in s ==> Distinct(s + [x])
  {
    if Distinct(s) && x !in s {
      forall i, j | 0 <= i < j < |s + [x]| ensures (s + [x])[i] != (s + [x])[j] {
        assert (s + [x])[i] == s[i];
        if j < |s| {
          assert (s + [x])[j] == s[j];
        }
      }
    }
  }

  /** One pass of the inner `forEach` of the classification, for attribute
      `name`: a name already listed, or of neither kind, changes nothing;
      any other name is appended to the list of its kind. */
  function AddKey(k: HookKeys, name: string): (r: HookKeys)
    ensures name in k.events || name in k.fns || KindOf(name) == Passthrough ==> r == k
    ensures name !in k.events && name !in k.fns && KindOf(name) == EventKind ==>
      r == HookKeys(k.events + [name], k.fns)
    ensures name !in k.events && name !in k.fns && KindOf(name) == FnKind ==>
      r == HookKeys(k.events, k.fns + [name])
  {
    if name == "onChange" then k
    else if name in k.events || name in k.fns then k
    else if IsEventHookKey(name) then k.(events := k.events + [name])
    else if IsFnHookKey(name) then k.(fns := k.fns + [name])
    else k
  }

  /** A pass of the classification keeps its lists well formed; they only
      grow at their ends, by at most one name, and `name` ends up listed
      exactly when it was listed already or is a hook name. */
  lemma AddKeyKeepsWellFormed(k: HookKeys, name: string)
    requires WellFormed(k)
    ensures WellFormed(AddKey(k, name))
    ensures k.events <= AddKey(k, name).events && k.fns <= AddKey(k, name).fns
    ensures |AddKey(k, name).events| + |AddKey(k, name).fns| <= |k.events| + |k.fns| + 1
    ensures forall x :: x in AddKey(k, name).events || x in AddKey(k, name).fns <==>
      x in k.events || x in k.fns || (x == name && KindOf(name) != Passthrough)
  {
    DistinctSnoc(k.events, name);
    DistinctSnoc(k.fns, name);
  }

  /** The key lists after the classification has seen `names`, in order. */
  function CollectKeys(names: seq<string>): HookKeys {
    if names == [] then HookKeys([], [])
    else AddKey(CollectKeys(names[..|names| - 1]), names[|names| - 1])
  }

  /** The attribute names of all sources, source by source. */
  function AllKeys(sources: seq<Plugin>): seq<string> {
    if sources == [] then []
    else AllKeys(sources[..|sources| - 1]) + sources[|sources| - 1].keys
  }

  /** The names of `names` that have kind `kind`, in order. */
  function OfKind(names: seq<string>, kind: HookKind): seq<string> {
    if names == [] then []
    else OfKind(names[..|names| - 1], kind) +
         if KindOf(names[|names| - 1]) == kind then [names[|names| - 1]] else []
  }

  /** The first occurrence of every element of `s`, in order. */
  function Dedup(s: seq<string>): seq<string> {
    if s == [] then []
    else
      var d := Dedup(s[..|s| - 1]);
      if s[|s| - 1] in d then d else d + [s[|s| - 1]]
  }

  lemma {:induction false} OfKindMembers(names: seq<string>, kind: HookKind)
    ensures forall x :: x in OfKind(names, kind) <==> x in names && KindOf(x) == kind
  {
    if names != [] {
      var p := names[..|names| - 1];
      OfKindMembers(p, kind);
      assert names == p + [names[|names| - 1]];
    }
  }

  lemma {:induction false} DedupMembersDistinct(s: seq<string>)
    ensures forall x :: x in Dedup(s) <==> x in s
    ensures Distinct(Dedup(s))
  {
    if s != [] {
      var p := s[..|s| - 1];
      DedupMembersDistinct(p);
      assert s == p + [s[|s| - 1]];
    }
  }

  lemma DedupSnoc(s: seq<string>, x: string)
    ensures Dedup(s + [x]) == if x in Dedup(s) then Dedup(s) else Dedup(s) + [x]
  {
    assert (s + [x])[..|s|] == s;
  }

  lemma OfKindSnoc(names: seq<string>, x: string, kind: HookKind)
    ensures OfKind(names + [x], kind) == OfKind(names, kind) + if KindOf(x) == kind then [x] else []
  {
    assert (names + [x])[..|names|] == names;
  }

  lemma AddKeyEvents(k: HookKeys, ev: seq<string>, x: string)
    requires k.events == Dedup(ev)
    requires x in k.fns ==> KindOf(x) == FnKind
    ensures AddKey(k, x).events == Dedup(ev + if KindOf(x) == EventKind then [x] else [])
  {
    DedupSnoc(ev, x);
    assert ev + [] == ev;
  }

  lemma AddKeyFns(k: HookKeys, fn: seq<string>, x: string)
    requires k.fns == Dedup(fn)
    requires x in k.events ==> KindOf(x) == EventKind
    ensures AddKey(k, x).fns == Dedup(fn + if KindOf(x) == FnKind then [x] else [])
  {
    DedupSnoc(fn, x);
    assert fn + [] == fn;
  }

  /** The classification keeps, per kind, the first occurrence of every name of
      that kind, in the order the sources and their keys are visited. */
  lemma {:induction false} CollectKeysIsDedup(names: seq<string>)
    ensures CollectKeys(names).events == Dedup(OfKind(names, EventKind))
    ensures CollectKeys(names).fns == Dedup(OfKind(names, FnKind))
  {
    if names != [] {
      var p, x := names[..|names| - 1], names[|names| - 1];
      assert names == p + [x];
      CollectKeysIsDedup(p);
      var k := CollectKeys(p);
      var ev, fn := OfKind(p, EventKind), OfKind(p, FnKind);
      assert x in k.fns ==> KindOf(x) == FnKind by {
        OfKindMembers(p, FnKind);
        DedupMembersDistinct(fn);
      }
      assert x in k.events ==> KindOf(x) == EventKind by {
        OfKindMembers(p, EventKind);
        DedupMembersDistinct(ev);
      }
      OfKindSnoc(p, x, EventKind);
      OfKindSnoc(p, x, FnKind);
      AddKeyEvents(k, ev, x);
      AddKeyFns(k, fn, x);
    }
  }

  /** A name is an event hook iff some source has it and it has the event
      shape (and is not `onChange`); likewise for function hooks; the lists
      are duplicate-free and share no name. */
  lemma CollectKeysSpec(names: seq<string>)
    ensures forall x :: x in CollectKeys(names).events <==> x in names && KindOf(x) == EventKind
    ensures forall x :: x in CollectKeys(names).fns <==> x in names && KindOf(x) == FnKind
    ensures Distinct(CollectKeys(names).events) && Distinct(CollectKeys(names).fns)
    ensures forall x :: x in CollectKeys(names).events ==> x !in CollectKeys(names).fns
  {
    CollectKeysIsDedup(names);
    OfKindMembers(names, EventKind);
    OfKindMembers(names, FnKind);
    DedupMembersDistinct(OfKind(names, EventKind));
    DedupMembersDistinct(OfKind(names, FnKind));
  }

  lemma CollectKeysSnoc(names: seq<string>, x: string)
    ensures CollectKeys(names + [x]) == AddKey(CollectKeys(names), x)
  {
    assert (names + [x])[..|names|] == names;
  }

  lemma AllKeysSnoc(sources: seq<Plugin>, i: nat)
    requires i < |sources|
    ensures AllKeys(sources[..i + 1]) == AllKeys(sources[..i]) + sources[i].keys
  {
    assert sources[..i + 1][..i] == sources[..i];
  }

  /** The inner `forEach` of `createPluginHooks`: the keys of one source,
      visited after the names in `before`. */
  method AddSourceKeys(before: seq<string>, keys: seq<string>, events: seq<string>, fns: seq<string>)
    returns (eventHookKeys: seq<string>, fnHookKeys: seq<string>)
    requires HookKeys(events, fns) == CollectKeys(before)
    ensures HookKeys(eventHookKeys, fnHookKeys) == CollectKeys(before + keys)
  {
    eventHookKeys, fnHookKeys := events, fns;
    var j := 0;
    assert before + keys[..j] == before;
    while j < |keys|
      invariant 0 <= j <= |keys|
      invariant HookKeys(eventHookKeys, fnHookKeys) == CollectKeys(before + keys[..j])
    {
      var attrName := keys[j];
      if attrName != "onChange" && attrName !in eventHookKeys && attrName !in fnHookKeys {
        if IsEventHookKey(attrName) {
          eventHookKeys := eventHookKeys + [attrName];
        } else if IsFnHookKey(attrName) {
          fnHookKeys := fnHookKeys + [attrName];
        }
      }
      CollectKeysSnoc(before + keys[..j], attrName);
      assert before + keys[..j + 1] == before + keys[..j] + [attrName];
      j := j + 1;
    }
    assert keys[..j] == keys;
  }

  /** The two nested `forEach` loops of `createPluginHooks` that fill
      `eventHookKeys` and `fnHookKeys`. */
  method CreateHookKeys(sources: seq<Plugin>) returns (eventHookKeys: seq<string>, fnHookKeys: seq<string>)
    ensures HookKeys(eventHookKeys, fnHookKeys) == CollectKeys(AllKeys(sources))
    ensures forall x :: x in eventHookKeys <==> x in AllKeys(sources) && KindOf(x) == EventKind
    ensures forall x :: x in fnHookKeys <==> x in AllKeys(sources) && KindOf(x) == FnKind
    ensures Distinct(eventHookKeys) && Distinct(fnHookKeys)
  {
    eventHookKeys, fnHookKeys := [], [];
    var i := 0;
    while i < |sources|
      invariant 0 <= i <= |sources|
      invariant HookKeys(eventHookKeys, fnHookKeys) == CollectKeys(AllKeys(sources[..i]))
    {
      eventHookKeys, fnHookKeys := AddSourceKeys(AllKeys(sources[..i]), sources[i].keys, eventHookKeys, fnHookKeys);
      AllKeysSnoc(sources, i);
      i := i + 1;
    }
    assert sources[..i] == sources;
    CollectKeysSpec(AllKeys(sources));
  }

  /** The composed hook `createPluginHooks` installs for a name of the given kind. */
  function HookFor(kind: HookKind, name: string, sources: seq<Plugin>): Hook {
    if kind == EventKind then EventHook(name, sources) else FnHook(name, sources)
  }

  /** One of the two loops that install composed hooks: every name in
      `names` gets the hook of `kind`; other entries are kept. */
  method InstallHooks(pluginHooks: map<string, Hook>, names: seq<string>, kind: HookKind, sources: seq<Plugin>)
    returns (r: map<string, Hook>)
    ensures forall name :: name in r <==> name in pluginHooks || name in names
    ensures forall name :: name in r ==>
      r[name] == if name in names then HookFor(kind, name, sources) else pluginHooks[name]
  {
    r := pluginHooks;
    var k := 0;
    while k < |names|
      invariant 0 <= k <= |names|
      invariant forall name :: name in r <==> name in pluginHooks || name in names[..k]
      invariant forall name :: name in r ==>
        r[name] == if name in names[..k] then HookFor(kind, name, sources) else pluginHooks[name]
    {
      r := r[names[k] := HookFor(kind, names[k], sources)];
      assert names[..k + 1] == names[..k] + [names[k]];
      k := k + 1;
    }
    assert names[..k] == names;
  }

  /** `createPluginHooks`: one composed hook per classified name, each
      running over all the hook sources (the props first); event names get
      the short-circuit chain, function names the policy their name selects. */
  method CreatePluginHooks(sources: seq<Plugin>) returns (pluginHooks: map<string, Hook>)
    ensures forall name :: name in pluginHooks <==> name in AllKeys(sources) && KindOf(name) != Passthrough
    ensures forall name :: name in pluginHooks ==>
              pluginHooks[name] == if KindOf(name) == EventKind then EventHook(name, sources) else FnHook(name, sources)
    ensures forall name :: name in pluginHooks ==>
              pluginHooks[name].methodName == name && pluginHooks[name].sources == sources
  {
    var eventHookKeys, fnHookKeys := CreateHookKeys(sources);
    pluginHooks := InstallHooks(map[], eventHookKeys, EventKind, sources);
    pluginHooks := InstallHooks(pluginHooks, fnHookKeys, FnKind, sources);
  }
}
