/**
 * The JavaScript string operations the agent relies on: `String.prototype.indexOf`
 * (the StringIndexOf operation), `String.prototype.replace` with a string pattern
 * (its GetSubstitution step included) and `String.prototype.toLowerCase`
 * restricted to ASCII letters. JavaScript strings are sequences of UTF-16 code
 * units; here they are Dafny strings, whose characters are Unicode scalar values,
 * so the two agree on text without characters outside the Basic Multilingual Plane.
 */
module JsString {
  import opened Wrappers

  /** `pattern` occurs in `s` starting at index `k`. */
  predicate OccursAt(s: string, pattern: string, k: nat) {
    k + |pattern| <= |s| && s[k..k + |pattern|] == pattern
  }

  /** `k` is the first index at which `pattern` occurs in `s`. */
  predicate FirstOccurrence(s: string, pattern: string, k: nat) {
    OccursAt(s, pattern, k) && forall j :: 0 <= j < k ==> !OccursAt(s, pattern, j)
  }

  /** StringIndexOf(s, pattern, from): the least index at or after `from` where `pattern` occurs. */
  function IndexOfFrom(s: string, pattern: string, from: nat): (r: Option<nat>)
    requires from <= |s|
    ensures r.Some? ==> from <= r.value && OccursAt(s, pattern, r.value)
    ensures r.Some? ==> forall j :: from <= j < r.value ==> !OccursAt(s, pattern, j)
    ensures r.None? <==> forall j :: from <= j ==> !OccursAt(s, pattern, j)
    decreases |s| - from
  {
    if from + |pattern| > |s| then None
    else if s[from..from + |pattern|] == pattern then
      assert OccursAt(s, pattern, from);
      Some(from)
    else
      assert |pattern| > 0;
      IndexOfFrom(s, pattern, from + 1)
  }

  /** `s.indexOf(pattern)`, with -1 as `None`. */
  function IndexOf(s: string, pattern: string): (r: Option<nat>)
    ensures r.Some? <==> exists k :: FirstOccurrence(s, pattern, k)
    ensures r.Some? ==> FirstOccurrence(s, pattern, r.value)
  {
    var r := IndexOfFrom(s, pattern, 0);
    assert r.Some? ==> FirstOccurrence(s, pattern, r.value);
    r
  }

  /**
   * GetSubstitution (section 22.1.3.19.1 of ECMA-262) for a search with a string
   * pattern: there are no capture groups and no named groups, so `$$` inserts `$`,
   * `$&` the matched text, `` $` `` the text before the match, `$'` the text after
   * it, and every other `$` stands for itself (`$1`, `$<` and a trailing `$` included).
   */
  function Substitute(template: string, matched: string, before: string, after: string): string
    decreases |template|
  {
    if |template| == 0 then ""
    else if template[0] == '$' && |template| >= 2 && template[1] in "$&`'" then
      var piece :=
        if template[1] == '$' then "$"
        else if template[1] == '&' then matched
        else if template[1] == '`' then before
        else after;
      piece + Substitute(template[2..], matched, before, after)
    else
      [template[0]] + Substitute(template[1..], matched, before, after)
  }

  /** `s.replace(pattern, replacement)` for a string `pattern`: only the first occurrence is replaced. */
  function ReplaceFirst(s: string, pattern: string, replacement: string): string {
    match IndexOf(s, pattern)
    case None => s
    case Some(k) =>
      var before, after := s[..k], s[k + |pattern|..];
      before + Substitute(replacement, pattern, before, after) + after
  }

  /** A template without `$` is inserted literally. */
  lemma {:induction false} SubstituteLiteral(template: string, matched: string, before: string, after: string)
    requires '$' !in template
    ensures Substitute(template, matched, before, after) == template
    decreases |template|
  {
    if |template| > 0 {
      assert template[0] != '$';
      assert '$' !in template[1..] by {
        forall i | 0 <= i < |template[1..]| ensures template[1..][i] != '$' {
          assert template[1..][i] == template[i + 1];
        }
      }
      SubstituteLiteral(template[1..], matched, before, after);
      assert [template[0]] + template[1..] == template;
    }
  }

  /**
   * When `pattern` first occurs at `k` and `replacement` has no `$`, the result is the text
   * before the occurrence, then `replacement`, then the untouched rest (later occurrences included).
   */
  lemma ReplaceFirstFound(s: string, pattern: string, replacement: string, k: nat)
    requires '$' !in replacement
    requires FirstOccurrence(s, pattern, k)
    ensures ReplaceFirst(s, pattern, replacement) == s[..k] + replacement + s[k + |pattern|..]
  {
    var r := IndexOf(s, pattern);
    assert r.Some?;
    SubstituteLiteral(replacement, pattern, s[..k], s[k + |pattern|..]);
  }

  /** When `pattern` does not occur, `replace` returns the string unchanged. */
  lemma ReplaceFirstNotFound(s: string, pattern: string, replacement: string)
    requires forall j :: !OccursAt(s, pattern, j)
    ensures ReplaceFirst(s, pattern, replacement) == s
  {
  }

  /** `toLowerCase` on one code unit, for ASCII letters; every other code unit is left as it is. */
  function LowerAscii(c: char): char {
    if 'A' <= c <= 'Z' then (c as int + 32) as char else c
  }

  /** `s.toLowerCase()` with ASCII case mapping: same length, each code unit lower-cased. */
  function ToLower(s: string): (r: string)
    ensures |r| == |s|
    ensures forall i :: 0 <= i < |s| ==> r[i] == LowerAscii(s[i])
  {
    if s == [] then [] else [LowerAscii(s[0])] + ToLower(s[1..])
  }
}
