/** The lexical tests that decide whether an attribute name is a hook. */
module HookNames {

  /** `pat` occurs in `s` starting at index `i`. */
  predicate OccursAt(s: string, pat: string, i: int) {
    0 <= i && i + |pat| <= |s| && s[i..i + |pat|] == pat
  }

  /** `s.indexOf(pat, from)`: the first occurrence at or after `from`, or -1. */
  function IndexFrom(s: string, pat: string, from: nat): (r: int)
    decreases |s| - from
    ensures r == -1 || (from <= r && OccursAt(s, pat, r))
    ensures forall i :: from <= i && (r == -1 || i < r) ==> !OccursAt(s, pat, i)
  {
    if from + |pat| > |s| then -1
    else if s[from..from + |pat|] == pat then from
    else IndexFrom(s, pat, from + 1)
  }

  /** `s.indexOf(pat)`. */
  function IndexOf(s: string, pat: string): (r: int)
    ensures r == -1 <==> forall i :: !OccursAt(s, pat, i)
    ensures r != -1 ==> 0 <= r && OccursAt(s, pat, r) && forall i :: 0 <= i < r ==> !OccursAt(s, pat, i)
  {
    IndexFrom(s, pat, 0)
  }

  /** The first occurrence of `on` or of `handle` is at index 0. */
  predicate IsEventHookKey(name: string)
    ensures IsEventHookKey(name) ==> |name| >= 2
  {
    IndexOf(name, "on") == 0 || IndexOf(name, "handle") == 0
  }

  /** The first occurrence of `Fn` is at index `length - 2` (so a name without
      `Fn` passes when its length is 1, where both sides are -1). */
  predicate IsFnHookKey(name: string)
    ensures IsFnHookKey(name) ==> name != []
  {
    |name| - 2 == IndexOf(name, "Fn")
  }

  /** An event-hook name is exactly one that starts with `on` or `handle`. */
  lemma EventHookKeyIsPrefix(name: string)
    ensures IsEventHookKey(name) <==> ("on" <= name || "handle" <= name)
  {
    assert "on" <= name <==> OccursAt(name, "on", 0);
    assert "handle" <= name <==> OccursAt(name, "handle", 0);
  }

  /** The function-hook test holds exactly for one-character names (where both
      sides are -1) and for names whose only occurrence of `Fn` is at the end. */
  lemma FnHookKeyShape(name: string)
    ensures IsFnHookKey(name) <==>
      |name| == 1 ||
      (|name| >= 2 && name[|name| - 2..] == "Fn" &&
       forall i :: 0 <= i < |name| - 2 ==> !OccursAt(name, "Fn", i))
  {
    if |name| >= 2 {
      assert name[|name| - 2..] == "Fn" <==> OccursAt(name, "Fn", |name| - 2);
    }
  }

  /** Names that end in `Fn` but mention `Fn` earlier are not function hooks;
      a one-character name is; the empty name is not. */
  lemma FnHookKeyEdgeCases()
    ensures !IsFnHookKey("FnXFn")
    ensures IsFnHookKey("x")
    ensures !IsFnHookKey("")
    ensures IsFnHookKey("blockRendererFn")
  {
    assert OccursAt("FnXFn", "Fn", 0);
    var s := "blockRendererFn";
    FnHookKeyShape(s);
    assert s[..|s| - 2] == "blockRenderer";
    NoEarlyFn(s);
  }

  /** A name with no `F` before its last two characters has no `Fn` there. */
  lemma NoEarlyFn(s: string)
    requires |s| >= 2 && 'F' !in s[..|s| - 2]
    ensures forall i :: 0 <= i < |s| - 2 ==> !OccursAt(s, "Fn", i)
  {
    forall i | 0 <= i < |s| - 2 ensures !OccursAt(s, "Fn", i) {
      assert s[..|s| - 2][i] == s[i];
      assert s[i..i + 2][0] == s[i];
    }
  }
}
