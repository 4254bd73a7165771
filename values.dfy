/** JavaScript values as far as the plugin editor inspects them. */
module JsValues {

  datatype Option<+T> = None | Some(value: T) {
    function GetOr(default: T): T {
      match this
      case Some(v) => v
      case None => default
    }
  }

  /** A JavaScript value. Numbers are integers; a function is known by the
      text `String(f)` gives for it; an object by its own enumerable properties. */
  datatype Value =
    | Undefined
    | Null
    | Bool(b: bool)
    | Num(n: int)
    | Str(s: string)
    | Fun(source: string)
    | Obj(fields: map<string, Value>)

  /** The draft-js editor state, an immutable value the engine only passes on. */
  datatype EditorState = EditorState(id: nat)

  /** JavaScript truthiness (`if (v)`, `v ? a : b`, `v || d`). */
  predicate Truthy(v: Value) {
    match v
    case Undefined => false
    case Null => false
    case Bool(b) => b
    case Num(n) => n != 0
    case Str(s) => s != ""
    case Fun(_) => true
    case Obj(_) => true
  }

  function Digit(d: nat): char
    requires d < 10
  {
    "0123456789"[d]
  }

  /** The decimal numeral of `n`, as `String(n)` writes it. */
  function NatToDecimal(n: nat): (r: string)
    ensures r != []
    ensures forall i :: 0 <= i < |r| ==> '0' <= r[i] <= '9'
  {
    if n < 10 then [Digit(n)] else NatToDecimal(n / 10) + [Digit(n % 10)]
  }

  function IntToDecimal(n: int): (r: string)
    ensures r != []
    ensures (r[0] == '-') == (n < 0)
  {
    if n < 0 then "-" + NatToDecimal(-n) else NatToDecimal(n)
  }

  /** The own enumerable properties of the characters `s[from..]` of a string:
      index numeral to one-character string. */
  function IndexFields(s: string, from: nat): (m: map<string, Value>)
    requires from <= |s|
    decreases |s| - from
  {
    if from == |s| then map[] else IndexFields(s, from + 1)[NatToDecimal(from) := Str([s[from]])]
  }

  /** What object spread `{ ...v }` copies out of `v`: nothing for undefined,
      null, booleans, numbers and functions, the indexed characters of a string,
      the own properties of an object. */
  function OwnFields(v: Value): map<string, Value> {
    match v
    case Str(s) => IndexFields(s, 0)
    case Obj(f) => f
    case _ => map[]
  }

  /** A property read `m.key` on an object given by its fields. */
  function Lookup(m: map<string, Value>, key: string): Value {
    if key in m then m[key] else Undefined
  }

  /** A property read `v.key` on a value that is neither undefined nor null. */
  function Get(v: Value, key: string): Value
    requires v != Undefined && v != Null
  {
    match v
    case Str(s) => if key == "length" then Num(|s|) else Lookup(OwnFields(v), key)
    case _ => Lookup(OwnFields(v), key)
  }

  /** `String(v)`, the conversion a template literal or `'' + v` applies. */
  function ToJsString(v: Value): string {
    match v
    case Undefined => "undefined"
    case Null => "null"
    case Bool(b) => if b then "true" else "false"
    case Num(n) => IntToDecimal(n)
    case Str(s) => s
    case Fun(source) => source
    case Obj(_) => "[object Object]"
  }
}

/** Object spread as an override merge: `{ ...a, ...b }` keeps every key of
    either object, and on a shared key the later object wins. */
module Spread {
  import opened JsValues

  predicate Provides(layer: Option<map<string, Value>>, key: string) {
    layer.Some? && key in layer.value
  }

  /** `{ ...l0, ...l1, ... }` over the layers that are present (None is skipped). */
  function Overlay(layers: seq<Option<map<string, Value>>>): map<string, Value> {
    if layers == [] then map[]
    else
      var below := Overlay(layers[..|layers| - 1]);
      match layers[|layers| - 1]
      case None => below
      case Some(m) => below + m
  }

  lemma OverlaySnoc(layers: seq<Option<map<string, Value>>>, top: Option<map<string, Value>>)
    ensures Overlay(layers + [top]) == match top case None => Overlay(layers) case Some(m) => Overlay(layers) + m
  {
    assert (layers + [top])[..|layers|] == layers;
  }

  /** Layer `j` is the last layer that has `key`. */
  predicate LastProvider(layers: seq<Option<map<string, Value>>>, key: string, j: int) {
    0 <= j < |layers| && Provides(layers[j], key) &&
    forall i :: j < i < |layers| ==> !Provides(layers[i], key)
  }

  /** A key is in the merge iff some layer has it. */
  lemma {:induction false} OverlayMembers(layers: seq<Option<map<string, Value>>>, key: string)
    ensures key in Overlay(layers) <==> exists i :: 0 <= i < |layers| && Provides(layers[i], key)
  {
    if layers != [] {
      var below := layers[..|layers| - 1];
      OverlayMembers(below, key);
      assert forall i :: 0 <= i < |below| ==> below[i] == layers[i];
    }
  }

  /** A key in the merge has the value of the last layer that has it. */
  lemma {:induction false} OverlayLastWins(layers: seq<Option<map<string, Value>>>, key: string)
    ensures key in Overlay(layers) ==>
      exists j :: LastProvider(layers, key, j) && Overlay(layers)[key] == layers[j].value[key]
  {
    if layers != [] && key in Overlay(layers) {
      var n := |layers|;
      var below := layers[..n - 1];
      if Provides(layers[n - 1], key) {
        assert LastProvider(layers, key, n - 1) && Overlay(layers)[key] == layers[n - 1].value[key];
      } else {
        assert key in Overlay(below) && Overlay(layers)[key] == Overlay(below)[key];
        OverlayLastWins(below, key);
        var j :| LastProvider(below, key, j) && Overlay(below)[key] == below[j].value[key];
        assert below[j] == layers[j];
        assert LastProvider(layers, key, j);
      }
    }
  }

  /** Both: a key is in the merge iff some layer has it, and its value is
      that of the last layer that has it. */
  lemma OverlayLaterWins(layers: seq<Option<map<string, Value>>>, key: string)
    ensures key in Overlay(layers) <==> exists i :: 0 <= i < |layers| && Provides(layers[i], key)
    ensures key in Overlay(layers) ==>
      exists j :: LastProvider(layers, key, j) && Overlay(layers)[key] == layers[j].value[key]
  {
    OverlayMembers(layers, key);
    OverlayLastWins(layers, key);
  }
}
