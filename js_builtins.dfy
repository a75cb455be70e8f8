/**
 * The few JavaScript built-ins the components rely on: truthiness
 * (`Boolean(v)`, `if (v)`), `String.prototype.startsWith` and
 * `String.prototype.replace` with a string pattern.
 */
module JsBuiltins {

  /** A JavaScript value, as far as its truthiness is concerned. */
  datatype JsValue =
    | Undefined
    | Null
    | Bool(b: bool)
    | Number(x: real)
    | NaN
    | Str(s: string)
    | Object

  /** `Boolean(v)`: false exactly for undefined, null, false, 0, NaN and "". */
  predicate Truthy(v: JsValue) {
    match v
    case Undefined | Null | NaN => false
    case Bool(b) => b
    case Number(x) => x != 0.0
    case Str(s) => s != ""
    case Object => true
  }

  /** `s.startsWith(prefix)`. */
  predicate StartsWith(s: string, prefix: string) {
    |prefix| <= |s| && s[..|prefix|] == prefix
  }

  /** `pat` occurs in `s` starting at index `i` (the empty pattern occurs everywhere). */
  predicate OccursAt(s: string, pat: string, i: nat) {
    i + |pat| <= |s| && s[i..i + |pat|] == pat
  }

  /**
   * `s.replace(pat, rep)` with a string pattern: the first occurrence of
   * `pat`, scanning from the left, is replaced by `rep`; nothing else changes.
   */
  function ReplaceFirst(s: string, pat: string, rep: string): string
    decreases |s|
  {
    if OccursAt(s, pat, 0) then rep + s[|pat|..]
    else if s == [] then s
    else [s[0]] + ReplaceFirst(s[1..], pat, rep)
  }

  /** Occurrences in the tail of a string are the occurrences shifted by one. */
  lemma OccursInTail(s: string, pat: string, i: nat)
    requires s != []
    ensures OccursAt(s[1..], pat, i) <==> OccursAt(s, pat, i + 1)
  {
  }

  /** Without an occurrence of the pattern, `replace` returns the string unchanged. */
  lemma {:induction false} ReplaceFirstWithoutMatch(s: string, pat: string, rep: string)
    requires forall i: nat :: i <= |s| ==> !OccursAt(s, pat, i)
    ensures ReplaceFirst(s, pat, rep) == s
  {
    assert !OccursAt(s, pat, 0);
    if s != [] {
      forall i: nat | i <= |s[1..]|
        ensures !OccursAt(s[1..], pat, i)
      {
        OccursInTail(s, pat, i);
      }
      ReplaceFirstWithoutMatch(s[1..], pat, rep);
    }
  }

  /**
   * When the first occurrence of the pattern starts at `k`, `replace` splices
   * `rep` in there and keeps everything before and after it, later
   * occurrences included.
   */
  lemma {:induction false} ReplaceFirstAtFirstMatch(s: string, pat: string, rep: string, k: nat)
    requires OccursAt(s, pat, k)
    requires forall i: nat :: i < k ==> !OccursAt(s, pat, i)
    ensures ReplaceFirst(s, pat, rep) == s[..k] + rep + s[k + |pat|..]
  {
    if k > 0 {
      assert !OccursAt(s, pat, 0);
      var tail := s[1..];
      OccursInTail(s, pat, k - 1);
      forall i: nat | i < k - 1
        ensures !OccursAt(tail, pat, i)
      {
        OccursInTail(s, pat, i);
      }
      ReplaceFirstAtFirstMatch(tail, pat, rep, k - 1);
      assert ReplaceFirst(s, pat, rep) == [s[0]] + ReplaceFirst(tail, pat, rep);
      assert s[..k] == [s[0]] + tail[..k - 1];
      assert s[k + |pat|..] == tail[k - 1 + |pat|..];
    }
  }

  /** `s.replace(prefix, '')` on a string that starts with `prefix` removes that prefix. */
  lemma StripLeadingPrefix(s: string, prefix: string)
    requires StartsWith(s, prefix)
    ensures ReplaceFirst(s, prefix, "") == s[|prefix|..]
  {
  }
}
