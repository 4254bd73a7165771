/** `resolveAccessibilityProps`: the accessibility props every hook source
    asks for, merged in source order. Two popup flags have their own rule. */
module Accessibility {
  import opened JsValues

  const HasPopup := "ariaHasPopup"
  const Expanded := "ariaExpanded"

  /** The merged props, or the TypeError a source whose `getAccessibilityProps`
      returned undefined or null raises when its flags are read. */
  datatype Resolved = Resolved(props: map<string, Value>) | TypeError

  /** For one call, `results[i]` is None when source `i` has no
      `getAccessibilityProps` function, otherwise what it returned. */
  predicate Throws(result: Option<Value>) {
    result == Some(Undefined) || result == Some(Null)
  }

  // ---------------------------------------------------------------------------
  // As written.

  /** The entry `popupProps` gets for flag `key`, None when it gets none: the
      plugin's flag while the merge has none yet, `'true'` when the plugin
      says `'true'`. */
  function PopupEntry(acc: map<string, Value>, props: Value, key: string): Option<Value>
    requires props != Undefined && props != Null
  {
    if Lookup(acc, key) == Undefined then Some(Get(props, key))
    else if Get(props, key) == Str("true") then Some(Str("true"))
    else None
  }

  function PopupProps(acc: map<string, Value>, props: Value): map<string, Value>
    requires props != Undefined && props != Null
  {
    var hasPopup := PopupEntry(acc, props, HasPopup);
    var expanded := PopupEntry(acc, props, Expanded);
    (if hasPopup.Some? then map[HasPopup := hasPopup.value] else map[]) +
    (if expanded.Some? then map[Expanded := expanded.value] else map[])
  }

  /** One iteration: the merge so far, then the plugin's props, then `popupProps`. */
  function MergeStep(acc: map<string, Value>, props: Value): map<string, Value>
    requires props != Undefined && props != Null
  {
    acc + OwnFields(props) + PopupProps(acc, props)
  }

  /** The merge after the first `n` sources. */
  function Resolve(results: seq<Option<Value>>, n: nat): Resolved
    requires n <= |results|
  {
    if n == 0 then Resolved(map[])
    else match Resolve(results, n - 1)
      case TypeError => TypeError
      case Resolved(acc) =>
        match results[n - 1]
        case None => Resolved(acc)
        case Some(v) => if v == Undefined || v == Null then TypeError else Resolved(MergeStep(acc, v))
  }

  lemma {:induction false} ResolveThrows(results: seq<Option<Value>>, n: nat)
    requires n <= |results|
    ensures Resolve(results, n).TypeError? <==> exists i :: 0 <= i < n && Throws(results[i])
  {
    if n > 0 {
      ResolveThrows(results, n - 1);
    }
  }

  /** The two conditional assignments that fill `popupProps`. */
  method BuildPopupProps(acc: map<string, Value>, props: Value) returns (popupProps: map<string, Value>)
    requires props != Undefined && props != Null
    ensures popupProps == PopupProps(acc, props)
  {
    popupProps := map[];
    if Lookup(acc, HasPopup) == Undefined {
      popupProps := popupProps[HasPopup := Get(props, HasPopup)];
    } else if Get(props, HasPopup) == Str("true") {
      popupProps := popupProps[HasPopup := Str("true")];
    }
    if Lookup(acc, Expanded) == Undefined {
      popupProps := popupProps[Expanded := Get(props, Expanded)];
    } else if Get(props, Expanded) == Str("true") {
      popupProps := popupProps[Expanded := Str("true")];
    }
  }

  method ResolveAccessibilityProps(results: seq<Option<Value>>) returns (r: Resolved)
    ensures r == Resolve(results, |results|)
    ensures r.TypeError? <==> exists i :: 0 <= i < |results| && Throws(results[i])
  {
    var accessibilityProps: map<string, Value> := map[];
    var i := 0;
    while i < |results|
      invariant 0 <= i <= |results|
      invariant Resolve(results, i) == Resolved(accessibilityProps)
    {
      if results[i].Some? {
        var props := results[i].value;
        if props == Undefined || props == Null {
          ResolveThrows(results, |results|);
          return TypeError;
        }
        var popupProps := BuildPopupProps(accessibilityProps, props);
        accessibilityProps := accessibilityProps + OwnFields(props) + popupProps;
      }
      i := i + 1;
    }
    ResolveThrows(results, |results|);
    return Resolved(accessibilityProps);
  }

  /** As written, `popupProps` never changes the value a flag ends up with:
      each step gives both flags exactly the value of the plain override
      merge `{ ...acc, ...props }`. */
  lemma PopupRuleHasNoEffect(acc: map<string, Value>, props: Value, key: string)
    requires props != Undefined && props != Null
    requires key == HasPopup || key == Expanded
    ensures Lookup(MergeStep(acc, props), key) == Lookup(acc + OwnFields(props), key)
  {
  }

  /** So a later plugin can downgrade a flag an earlier one set to `'true'`. */
  lemma DowngradeCounterexample()
    ensures Resolve([Some(Obj(map[HasPopup := Str("true")])), Some(Obj(map[HasPopup := Str("false")]))], 2)
            == Resolved(map[HasPopup := Str("false"), Expanded := Undefined])
  {
    var p1, p2 := Obj(map[HasPopup := Str("true")]), Obj(map[HasPopup := Str("false")]);
    var rs := [Some(p1), Some(p2)];
    assert PopupProps(map[], p1) == map[HasPopup := Str("true"), Expanded := Undefined];
    var acc := map[HasPopup := Str("true"), Expanded := Undefined];
    assert Resolve(rs, 1) == Resolved(acc);
    assert PopupEntry(acc, p2, HasPopup) == None;
    assert PopupEntry(acc, p2, Expanded) == Some(Undefined);
    assert MergeStep(acc, p2) == map[HasPopup := Str("false"), Expanded := Undefined];
  }

  // ---------------------------------------------------------------------------
  // Corrected: a flag that is set keeps its value unless a later plugin says `'true'`.

  /** The flag's value after a step: the plugin's while the merge has none,
      otherwise `'true'` if the plugin says so and the merged value if not. */
  function StickyEntry(acc: map<string, Value>, props: Value, key: string): Value
    requires props != Undefined && props != Null
  {
    if Lookup(acc, key) == Undefined then Get(props, key)
    else if Get(props, key) == Str("true") then Str("true")
    else Lookup(acc, key)
  }

  function StickyStep(acc: map<string, Value>, props: Value): map<string, Value>
    requires props != Undefined && props != Null
  {
    acc + OwnFields(props) + map[HasPopup := StickyEntry(acc, props, HasPopup),
                                 Expanded := StickyEntry(acc, props, Expanded)]
  }

  function ResolveSticky(results: seq<Option<Value>>, n: nat): Resolved
    requires n <= |results|
  {
    if n == 0 then Resolved(map[])
    else match ResolveSticky(results, n - 1)
      case TypeError => TypeError
      case Resolved(acc) =>
        match results[n - 1]
        case None => Resolved(acc)
        case Some(v) => if v == Undefined || v == Null then TypeError else Resolved(StickyStep(acc, v))
  }

  lemma {:induction false} ResolveStickyThrows(results: seq<Option<Value>>, n: nat)
    requires n <= |results|
    ensures ResolveSticky(results, n).TypeError? <==> exists i :: 0 <= i < n && Throws(results[i])
  {
    if n > 0 {
      ResolveStickyThrows(results, n - 1);
    }
  }

  /** In one step, a flag that is set stays as it was or becomes `'true'`;
      every other field is a plain later-wins override. */
  lemma StickyStepSpec(acc: map<string, Value>, props: Value, key: string)
    requires props != Undefined && props != Null
    ensures (key == HasPopup || key == Expanded) && Lookup(acc, key) != Undefined ==>
      Lookup(StickyStep(acc, props), key) == if Get(props, key) == Str("true") then Str("true") else Lookup(acc, key)
    ensures key != HasPopup && key != Expanded ==>
      Lookup(StickyStep(acc, props), key) == Lookup(acc + OwnFields(props), key)
  {
  }

  /** Once a source has set a flag, no later source unsets it or changes it to
      anything but `'true'`. */
  lemma {:induction false} FlagsAreSticky(results: seq<Option<Value>>, n: nat, m: nat, key: string)
    requires n <= m <= |results|
    requires key == HasPopup || key == Expanded
    requires ResolveSticky(results, n).Resolved? && Lookup(ResolveSticky(results, n).props, key) != Undefined
    ensures ResolveSticky(results, m).Resolved? ==>
      Lookup(ResolveSticky(results, m).props, key) in {Lookup(ResolveSticky(results, n).props, key), Str("true")}
    ensures ResolveSticky(results, m).Resolved? ==> Lookup(ResolveSticky(results, m).props, key) != Undefined
  {
    if m > n {
      FlagsAreSticky(results, n, m - 1, key);
      if ResolveSticky(results, m).Resolved? {
        var acc := ResolveSticky(results, m - 1).props;
        if results[m - 1].Some? {
          StickyStepSpec(acc, results[m - 1].value, key);
        }
      }
    }
  }

  method ResolveAccessibilityPropsSticky(results: seq<Option<Value>>) returns (r: Resolved)
    ensures r == ResolveSticky(results, |results|)
    ensures r.TypeError? <==> exists i :: 0 <= i < |results| && Throws(results[i])
  {
    var accessibilityProps: map<string, Value> := map[];
    var i := 0;
    while i < |results|
      invariant 0 <= i <= |results|
      invariant ResolveSticky(results, i) == Resolved(accessibilityProps)
    {
      if results[i].Some? {
        var props := results[i].value;
        if props == Undefined || props == Null {
          ResolveStickyThrows(results, |results|);
          return TypeError;
        }
        accessibilityProps := StickyStep(accessibilityProps, props);
      }
      i := i + 1;
    }
    ResolveStickyThrows(results, |results|);
    return Resolved(accessibilityProps);
  }

  /** Under the corrected rule a later plugin that omits the flag keeps the
      `'true'` an earlier one set, ... */
  lemma StickyOmitKeeps()
    ensures ResolveSticky([Some(Obj(map[HasPopup := Str("true")])), Some(Obj(map[]))], 2)
            == Resolved(map[HasPopup := Str("true"), Expanded := Undefined])
  {
    var rs := [Some(Obj(map[HasPopup := Str("true")])), Some(Obj(map[]))];
    var acc := map[HasPopup := Str("true"), Expanded := Undefined];
    assert ResolveSticky(rs, 1) == Resolved(acc);
    assert StickyStep(acc, Obj(map[])) == acc;
  }

  /** ... one that repeats `'true'` changes nothing, ... */
  lemma StickyRepeatIdempotent()
    ensures ResolveSticky([Some(Obj(map[HasPopup := Str("true")])), Some(Obj(map[HasPopup := Str("true")]))], 2)
            == Resolved(map[HasPopup := Str("true"), Expanded := Undefined])
  {
    var p := Obj(map[HasPopup := Str("true")]);
    var acc := map[HasPopup := Str("true"), Expanded := Undefined];
    assert ResolveSticky([Some(p), Some(p)], 1) == Resolved(acc);
    assert StickyStep(acc, p) == acc;
  }

  /** ... and a later `'false'` no longer downgrades it. */
  lemma StickyNoDowngrade()
    ensures ResolveSticky([Some(Obj(map[HasPopup := Str("true")])), Some(Obj(map[HasPopup := Str("false")]))], 2)
            == Resolved(map[HasPopup := Str("true"), Expanded := Undefined])
  {
    var rs := [Some(Obj(map[HasPopup := Str("true")])), Some(Obj(map[HasPopup := Str("false")]))];
    var acc := map[HasPopup := Str("true"), Expanded := Undefined];
    assert ResolveSticky(rs, 1) == Resolved(acc);
    assert StickyStep(acc, Obj(map[HasPopup := Str("false")])) == acc;
  }
}
