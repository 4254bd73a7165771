/** Which plugins a composed hook calls. For one call of a composed hook,
    `results[i]` is plugin `i`'s part: None when `plugin[name]` is not a
    function (the loop `continue`s past it), otherwise what calling it
    returned. */
module Calls {
  import opened JsValues

  /** The indices `i < n` of the plugins that implement the hook, in order. */
  function Implementing(results: seq<Option<Value>>, n: nat): seq<nat>
    requires n <= |results|
  {
    if n == 0 then []
    else Implementing(results, n - 1) + if results[n - 1].Some? then [n - 1] else []
  }

  /** Among the first `n` plugins, exactly the implementing ones are called,
      each once, in plugin order. */
  lemma {:induction false} ImplementingSpec(results: seq<Option<Value>>, n: nat)
    requires n <= |results|
    ensures forall i :: i in Implementing(results, n) <==> 0 <= i < n && results[i].Some?
    ensures forall a, b :: 0 <= a < b < |Implementing(results, n)| ==>
              Implementing(results, n)[a] < Implementing(results, n)[b]
  {
    if n > 0 {
      ImplementingSpec(results, n - 1);
      var prev := Implementing(results, n - 1);
      var last: seq<nat> := if results[n - 1].Some? then [n - 1] else [];
      assert Implementing(results, n) == prev + last;
      forall a | 0 <= a < |prev| ensures prev[a] < n - 1 {
        assert prev[a] in prev;
      }
    }
  }
}

/** `createEventHooks`: a chain that stops at the first plugin returning `true`. */
module EventHooks {
  import opened JsValues
  import opened Plugins
  import opened Calls

  /** The plugin returned exactly `true`. */
  predicate Handles(result: Option<Value>) {
    result == Some(Bool(true))
  }

  /** The first plugin that handles the event, if any. */
  function FirstHandler(results: seq<Option<Value>>): (r: Option<nat>)
    ensures r.None? <==> forall i :: 0 <= i < |results| ==> !Handles(results[i])
    ensures r.Some? ==> r.value < |results| && Handles(results[r.value]) &&
                        forall i :: 0 <= i < r.value ==> !Handles(results[i])
  {
    if results == [] then None
    else if Handles(results[0]) then Some(0)
    else match FirstHandler(results[1..])
         case None => None
         case Some(k) => Some(k + 1)
  }

  /** How many plugins the chain looks at: all of them, or up to and
      including the first that handles the event. */
  function ChainLength(results: seq<Option<Value>>): (n: nat)
    ensures n <= |results|
  {
    match FirstHandler(results)
    case None => |results|
    case Some(k) => k + 1
  }

  /** The composed event hook over `sources` for one call: whether it
      returned `true`, and the positions in `sources` of the plugins it called,
      in order. `results[i]` is the part of `sources[i]`. */
  method CallEventHook(sources: seq<Plugin>, results: seq<Option<Value>>) returns (handled: bool, invoked: seq<nat>)
    requires |results| == |sources|
    ensures forall k :: k in invoked ==> k < |sources|
    ensures handled <==> exists i :: 0 <= i < |results| && Handles(results[i])
    ensures invoked == Implementing(results, ChainLength(results))
  {
    invoked := [];
    var i := 0;
    while i < |results|
      invariant 0 <= i <= |results|
      invariant forall j :: 0 <= j < i ==> !Handles(results[j])
      invariant invoked == Implementing(results, i)
      invariant forall k :: k in invoked ==> k < i
    {
      if results[i].Some? {
        invoked := invoked + [i];
        if results[i].value == Bool(true) {
          return true, invoked;
        }
      }
      i := i + 1;
    }
    return false, invoked;
  }

  /** When some plugin handles the event, the chain calls exactly the
      implementing plugins up to and including the first handler, and no
      plugin after it; otherwise it calls every implementing plugin once. */
  lemma ChainCalls(results: seq<Option<Value>>)
    ensures forall i :: i in Implementing(results, ChainLength(results)) <==>
      0 <= i < |results| && results[i].Some? &&
      (FirstHandler(results).None? || i <= FirstHandler(results).value)
  {
    ImplementingSpec(results, ChainLength(results));
  }

  /** Three plugins, the second handles the event: the first two are called,
      the third is not. */
  lemma SecondPluginHandles(v: Value)
    ensures ChainLength([Some(Bool(false)), Some(Bool(true)), Some(v)]) == 2
    ensures Implementing([Some(Bool(false)), Some(Bool(true)), Some(v)], 2) == [0, 1]
  {
    var rs := [Some(Bool(false)), Some(Bool(true)), Some(v)];
    assert !Handles(rs[0]) && Handles(rs[1]);
    assert Implementing(rs, 1) == [0];
  }
}
