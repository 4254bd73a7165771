/** `createFnHooks`: the three merge policies of function hooks. */
module FnHooks {
  import opened JsValues
  import opened Spread
  import opened Plugins
  import opened Calls
  import opened PluginHooks

  // ---------------------------------------------------------------------------
  // Default policy: the first result that is not `undefined`.

  /** The plugin implements the hook and returned something other than undefined. */
  predicate Defined(result: Option<Value>) {
    result.Some? && result.value != Undefined
  }

  /** The first plugin whose result is not `undefined`, if any. */
  function FirstValue(results: seq<Option<Value>>): (r: Option<nat>)
    ensures r.None? <==> forall i :: 0 <= i < |results| ==> !Defined(results[i])
    ensures r.Some? ==> r.value < |results| && Defined(results[r.value]) &&
                        forall i :: 0 <= i < r.value ==> !Defined(results[i])
  {
    if results == [] then None
    else if Defined(results[0]) then Some(0)
    else match FirstValue(results[1..])
         case None => None
         case Some(k) => Some(k + 1)
  }

  /** What the default composed function hook returns, `false` when no plugin gave a value. */
  function DefaultResult(results: seq<Option<Value>>): Value {
    match FirstValue(results)
    case None => Bool(false)
    case Some(k) => results[k].value
  }

  /** How many plugins the default policy looks at. */
  function DefaultReach(results: seq<Option<Value>>): (n: nat)
    ensures n <= |results|
  {
    match FirstValue(results)
    case None => |results|
    case Some(k) => k + 1
  }

  method CallDefaultFnHook(results: seq<Option<Value>>) returns (result: Value, invoked: seq<nat>)
    ensures (exists i :: 0 <= i < |results| && Defined(results[i])) ==>
      exists k :: 0 <= k < |results| && Defined(results[k]) && result == results[k].value &&
        forall i :: 0 <= i < k ==> !Defined(results[i])
    ensures (forall i :: 0 <= i < |results| ==> !Defined(results[i])) ==> result == Bool(false)
    ensures result == DefaultResult(results)
    ensures invoked == Implementing(results, DefaultReach(results))
  {
    invoked := [];
    var i := 0;
    while i < |results|
      invariant 0 <= i <= |results|
      invariant forall j :: 0 <= j < i ==> !Defined(results[j])
      invariant invoked == Implementing(results, i)
    {
      if results[i].Some? {
        invoked := invoked + [i];
        if results[i].value != Undefined {
          return results[i].value, invoked;
        }
      }
      i := i + 1;
    }
    return Bool(false), invoked;
  }

  /** `null` is a value: a first plugin returning `null` decides the result. */
  lemma NullIsAValue(rest: seq<Option<Value>>)
    ensures DefaultResult([Some(Null)] + rest) == Null
    ensures DefaultResult([None, Some(Undefined)] + rest) == DefaultResult(rest)
  {
    var rs := [None, Some(Undefined)] + rest;
    assert rs[1..][1..] == rest;
  }

  // ---------------------------------------------------------------------------
  // `blockRendererFn`: structural merge of the block descriptors.

  /** The accumulator `block`, kept as its props-free part and its `props`. */
  datatype Block = Block(rest: map<string, Value>, props: map<string, Value>)

  /** The plugin returned something other than undefined or null. */
  predicate Contributes(result: Option<Value>) {
    result.Some? && result.value != Undefined && result.value != Null
  }

  /** The fields of a plugin's result other than `props`. */
  function RestOf(v: Value): map<string, Value> {
    OwnFields(v) - {"props"}
  }

  /** The fields of a plugin's `props` field, as spread into the block's props. */
  function PropsOf(v: Value): map<string, Value>
    requires v != Undefined && v != Null
  {
    OwnFields(Get(v, "props"))
  }

  /** One merge step: the result's other fields override the block's, and
      its `props` fields override the block's `props`. */
  function MergeInto(block: Block, v: Value): Block
    requires v != Undefined && v != Null
  {
    Block(block.rest + RestOf(v), block.props + PropsOf(v))
  }

  /** `block` after the first `n` plugins, starting from `{ props: {} }`. */
  function MergedBlock(results: seq<Option<Value>>, n: nat): Block
    requires n <= |results|
  {
    if n == 0 then Block(map[], map[])
    else
      var b := MergedBlock(results, n - 1);
      if Contributes(results[n - 1]) then MergeInto(b, results[n - 1].value) else b
  }

  /** The block as a JavaScript object. */
  function BlockValue(block: Block): Value {
    Obj(block.rest["props" := Obj(block.props)])
  }

  /** The merged block when its `component` is truthy, otherwise `false`. */
  function BlockRendererResult(results: seq<Option<Value>>): Value {
    var b := MergedBlock(results, |results|);
    if Truthy(Lookup(b.rest, "component")) then BlockValue(b) else Bool(false)
  }

  /** Each plugin's top-level fields (other than `props`) as a layer of the merge. */
  function RestLayers(results: seq<Option<Value>>): (r: seq<Option<map<string, Value>>>)
    ensures |r| == |results|
    ensures forall i :: 0 <= i < |results| ==>
              r[i] == if Contributes(results[i]) then Some(RestOf(results[i].value)) else None
  {
    seq(|results|, i requires 0 <= i < |results| =>
      if Contributes(results[i]) then Some(RestOf(results[i].value)) else None)
  }

  /** Each plugin's `props` as a layer of the merge. */
  function PropsLayers(results: seq<Option<Value>>): (r: seq<Option<map<string, Value>>>)
    ensures |r| == |results|
    ensures forall i :: 0 <= i < |results| ==>
              r[i] == if Contributes(results[i]) then Some(PropsOf(results[i].value)) else None
  {
    seq(|results|, i requires 0 <= i < |results| =>
      if Contributes(results[i]) then Some(PropsOf(results[i].value)) else None)
  }

  /** The loop's accumulator is the override merge of the plugins' top-level
      fields and, separately, of their `props`. */
  lemma {:induction false} MergedBlockIsOverlay(results: seq<Option<Value>>, n: nat)
    requires n <= |results|
    ensures MergedBlock(results, n) ==
      Block(Overlay(RestLayers(results[..n])), Overlay(PropsLayers(results[..n])))
  {
    if n > 0 {
      MergedBlockIsOverlay(results, n - 1);
      var p := results[..n - 1];
      assert results[..n] == p + [results[n - 1]];
      assert RestLayers(results[..n]) == RestLayers(p) + [RestLayers(results[..n])[n - 1]];
      assert PropsLayers(results[..n]) == PropsLayers(p) + [PropsLayers(results[..n])[n - 1]];
      OverlaySnoc(RestLayers(p), RestLayers(results[..n])[n - 1]);
      OverlaySnoc(PropsLayers(p), PropsLayers(results[..n])[n - 1]);
    }
  }

  /** Top-level fields and `props` keys of the composed block: a key is kept
      iff some non-null result has it, with the value of the last such
      result. The block is returned iff the merged `component` is truthy,
      and then its `props` are the merged props. */
  lemma BlockRendererLaterWins(results: seq<Option<Value>>, key: string)
    ensures var b := MergedBlock(results, |results|);
      && (key in b.props <==> exists i :: 0 <= i < |results| && Provides(PropsLayers(results)[i], key))
      && (key in b.props ==> exists j ::
            LastProvider(PropsLayers(results), key, j) && b.props[key] == PropsLayers(results)[j].value[key])
      && (key in b.rest <==> exists i :: 0 <= i < |results| && Provides(RestLayers(results)[i], key))
      && (key in b.rest ==> exists j ::
            LastProvider(RestLayers(results), key, j) && b.rest[key] == RestLayers(results)[j].value[key])
    ensures BlockRendererResult(results) != Bool(false) <==>
      Truthy(Lookup(MergedBlock(results, |results|).rest, "component"))
    ensures BlockRendererResult(results) != Bool(false) ==>
      BlockRendererResult(results).fields["props"] == Obj(MergedBlock(results, |results|).props)
  {
    MergedBlockIsOverlay(results, |results|);
    assert results[..|results|] == results;
    OverlayLaterWins(RestLayers(results), key);
    OverlayLaterWins(PropsLayers(results), key);
  }

  /** How the two results of `BlockRendererExample` split into top-level
      fields and `props`. */
  lemma BlockRendererExampleParts(a: string)
    ensures RestOf(Obj(map["component" := Fun(a), "props" := Obj(map["x" := Num(1)])])) == map["component" := Fun(a)]
    ensures PropsOf(Obj(map["component" := Fun(a), "props" := Obj(map["x" := Num(1)])])) == map["x" := Num(1)]
    ensures RestOf(Obj(map["props" := Obj(map["y" := Num(2)])])) == map[]
    ensures PropsOf(Obj(map["props" := Obj(map["y" := Num(2)])])) == map["y" := Num(2)]
  {
    var m := map["component" := Fun(a), "props" := Obj(map["x" := Num(1)])];
    assert m.Keys - {"props"} == {"component"};
  }

  /** The accumulator for the two results of `BlockRendererExample`. */
  lemma BlockRendererExampleMerge(a: string)
    ensures MergedBlock([
      Some(Obj(map["component" := Fun(a), "props" := Obj(map["x" := Num(1)])])),
      Some(Obj(map["props" := Obj(map["y" := Num(2)])]))], 2)
      == Block(map["component" := Fun(a)], map["x" := Num(1), "y" := Num(2)])
  {
    var p1 := Obj(map["component" := Fun(a), "props" := Obj(map["x" := Num(1)])]);
    var p2 := Obj(map["props" := Obj(map["y" := Num(2)])]);
    var rs := [Some(p1), Some(p2)];
    BlockRendererExampleParts(a);
    assert Contributes(rs[0]) && Contributes(rs[1]);
    var b0 := MergedBlock(rs, 0);
    assert b0 == Block(map[], map[]);
    var b1 := MergeInto(b0, p1);
    assert b1 == Block(map["component" := Fun(a)], map["x" := Num(1)]);
    assert MergedBlock(rs, 1) == b1;
    var b2 := MergeInto(b1, p2);
    assert b2.rest == map["component" := Fun(a)];
    assert b2.props == map["x" := Num(1), "y" := Num(2)];
    assert MergedBlock(rs, 2) == b2;
  }

  /** `{ component: A, props: { x: 1 } }` then `{ props: { y: 2 } }` compose to
      `{ component: A, props: { x: 1, y: 2 } }`. */
  lemma BlockRendererExample(a: string)
    ensures BlockRendererResult([
      Some(Obj(map["component" := Fun(a), "props" := Obj(map["x" := Num(1)])])),
      Some(Obj(map["props" := Obj(map["y" := Num(2)])]))])
      == Obj(map["component" := Fun(a), "props" := Obj(map["x" := Num(1), "y" := Num(2)])])
  {
    BlockRendererExampleMerge(a);
  }

  method CallBlockRendererFn(results: seq<Option<Value>>) returns (result: Value, invoked: seq<nat>)
    ensures result == BlockRendererResult(results)
    ensures invoked == Implementing(results, |results|)
  {
    var block := Block(map[], map[]);
    invoked := [];
    var i := 0;
    while i < |results|
      invariant 0 <= i <= |results|
      invariant block == MergedBlock(results, i)
      invariant invoked == Implementing(results, i)
    {
      if results[i].Some? {
        invoked := invoked + [i];
        var r := results[i].value;
        if r != Undefined && r != Null {
          block := MergeInto(block, r);
        }
      }
      i := i + 1;
    }
    if Truthy(Lookup(block.rest, "component")) {
      result := BlockValue(block);
    } else {
      result := Bool(false);
    }
  }

  // ---------------------------------------------------------------------------
  // `blockStyleFn`: the results joined into one space-separated string.

  /** One step of the style accumulator: a space after a non-empty accumulator, then the new result. */
  function AppendStyle(styles: string, s: string): string {
    (if styles != "" then styles + " " else "") + s
  }

  /** `styles` after the first `n` plugins (undefined and '' behave alike). */
  function StyleString(results: seq<Option<Value>>, n: nat): string
    requires n <= |results|
  {
    if n == 0 then ""
    else
      var s := StyleString(results, n - 1);
      if Defined(results[n - 1]) then AppendStyle(s, ToJsString(results[n - 1].value)) else s
  }

  /** The accumulated string, or `false` when it is empty. */
  function BlockStyleResult(results: seq<Option<Value>>): Value {
    var s := StyleString(results, |results|);
    if s == "" then Bool(false) else Str(s)
  }

  /** The strings the first `n` plugins contribute, in order. */
  function Contributions(results: seq<Option<Value>>, n: nat): seq<string>
    requires n <= |results|
  {
    if n == 0 then []
    else Contributions(results, n - 1) +
         if Defined(results[n - 1]) then [ToJsString(results[n - 1].value)] else []
  }

  /** The strings joined with single spaces. */
  function Join(cs: seq<string>): string {
    if cs == [] then ""
    else if |cs| == 1 then cs[0]
    else Join(cs[..|cs| - 1]) + " " + cs[|cs| - 1]
  }

  /** `cs` without its leading empty strings. */
  function DropLeadingEmpty(cs: seq<string>): (r: seq<string>)
    ensures r == [] || r[0] != ""
  {
    if cs == [] then [] else if cs[0] == "" then DropLeadingEmpty(cs[1..]) else cs
  }

  lemma {:induction false} DropLeadingEmptySnoc(cs: seq<string>, c: string)
    ensures DropLeadingEmpty(cs + [c]) ==
      if DropLeadingEmpty(cs) == [] then (if c == "" then [] else [c]) else DropLeadingEmpty(cs) + [c]
  {
    if cs != [] {
      assert (cs + [c])[1..] == cs[1..] + [c];
      if cs[0] == "" {
        DropLeadingEmptySnoc(cs[1..], c);
      }
    } else {
      assert [c][1..] == [];
    }
  }

  lemma JoinSnoc(cs: seq<string>, c: string)
    requires cs != []
    ensures Join(cs + [c]) == Join(cs) + " " + c
  {
    assert (cs + [c])[..|cs|] == cs;
  }

  /** The style string is the contributions joined by single spaces, once the
      leading empty contributions are dropped (those add no space). */
  lemma {:induction false} StyleStringIsJoin(results: seq<Option<Value>>, n: nat)
    requires n <= |results|
    ensures StyleString(results, n) == Join(DropLeadingEmpty(Contributions(results, n)))
  {
    if n > 0 {
      StyleStringIsJoin(results, n - 1);
      var cs := Contributions(results, n - 1);
      var ds := DropLeadingEmpty(cs);
      if Defined(results[n - 1]) {
        var c := ToJsString(results[n - 1].value);
        assert Contributions(results, n) == cs + [c];
        DropLeadingEmptySnoc(cs, c);
        if ds != [] {
          JoinSnoc(ds, c);
          JoinOfNonEmpty(ds);
        }
      } else {
        assert Contributions(results, n) == cs;
      }
    }
  }

  /** When every contributing plugin returns a non-empty string the result is
      their `join(' ')`; the result is `false` iff every contribution is empty. */
  lemma BlockStyleIsJoin(results: seq<Option<Value>>)
    ensures (forall c :: c in Contributions(results, |results|) ==> c != "") ==>
      BlockStyleResult(results) == if Contributions(results, |results|) == [] then Bool(false)
                                   else Str(Join(Contributions(results, |results|)))
    ensures BlockStyleResult(results) == Bool(false) <==>
      forall c :: c in Contributions(results, |results|) ==> c == ""
  {
    var cs := Contributions(results, |results|);
    StyleStringIsJoin(results, |results|);
    DropLeadingEmptyEmpty(cs);
    if forall c :: c in cs ==> c != "" {
      if cs != [] {
        assert cs[0] in cs;
        JoinOfNonEmpty(cs);
      }
    }
    if DropLeadingEmpty(cs) != [] {
      JoinOfNonEmpty(DropLeadingEmpty(cs));
    }
  }

  lemma {:induction false} DropLeadingEmptyEmpty(cs: seq<string>)
    ensures DropLeadingEmpty(cs) == [] <==> forall c :: c in cs ==> c == ""
  {
    if cs != [] {
      if cs[0] == "" {
        DropLeadingEmptyEmpty(cs[1..]);
        assert forall c :: c in cs <==> c == cs[0] || c in cs[1..] by {
          assert cs == [cs[0]] + cs[1..];
        }
      } else {
        assert cs[0] in cs;
      }
    }
  }

  lemma JoinOfNonEmpty(cs: seq<string>)
    requires cs != [] && cs[0] != ""
    ensures Join(cs) != ""
  {
  }

  /** `"foo"` then `"bar"` compose to `"foo bar"`. */
  lemma BlockStyleExample()
    ensures BlockStyleResult([Some(Str("foo")), Some(Str("bar"))]) == Str("foo bar")
  {
    var rs := [Some(Str("foo")), Some(Str("bar"))];
    assert StyleString(rs, 1) == "foo";
  }

  method CallBlockStyleFn(results: seq<Option<Value>>) returns (result: Value, invoked: seq<nat>)
    ensures result == BlockStyleResult(results)
    ensures invoked == Implementing(results, |results|)
  {
    var styles := "";
    invoked := [];
    var i := 0;
    while i < |results|
      invariant 0 <= i <= |results|
      invariant styles == StyleString(results, i)
      invariant invoked == Implementing(results, i)
    {
      if results[i].Some? {
        invoked := invoked + [i];
        if results[i].value != Undefined {
          styles := (if styles != "" then styles + " " else "") + ToJsString(results[i].value);
        }
      }
      i := i + 1;
    }
    result := if styles != "" then Str(styles) else Bool(false);
  }

  // ---------------------------------------------------------------------------
  // The composed function hook, by policy.

  function FnHookResult(policy: FnPolicy, results: seq<Option<Value>>): Value {
    match policy
    case FirstDefined => DefaultResult(results)
    case BlockRenderer => BlockRendererResult(results)
    case BlockStyle => BlockStyleResult(results)
  }

  /** A call of the composed function hook `methodName` over `sources`;
      `results[i]` is the part of `sources[i]`, and `invoked` holds positions
      in `sources`. */
  method CallFnHook(methodName: string, sources: seq<Plugin>, results: seq<Option<Value>>)
    returns (result: Value, invoked: seq<nat>)
    requires |results| == |sources|
    ensures forall k :: k in invoked ==> k < |sources|
    ensures result == FnHookResult(PolicyOf(methodName), results)
    ensures invoked == Implementing(results, if PolicyOf(methodName) == FirstDefined then DefaultReach(results) else |results|)
  {
    if methodName == "blockRendererFn" {
      result, invoked := CallBlockRendererFn(results);
    } else if methodName == "blockStyleFn" {
      result, invoked := CallBlockStyleFn(results);
    } else {
      result, invoked := CallDefaultFnHook(results);
    }
    ImplementingSpec(results, if PolicyOf(methodName) == FirstDefined then DefaultReach(results) else |results|);
  }
}
