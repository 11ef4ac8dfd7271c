/**
 * The JavaScript string built-ins the editor relies on: `trim`, `split(/\s+/)`,
 * `indexOf`, `lastIndexOf` and `replace` with a string pattern, modelled on
 * sequences of characters.
 */
module JsText {

  /** The characters ECMAScript calls WhiteSpace or LineTerminator. `trim` strips
      exactly these, and they are exactly what the regular-expression class `\s` matches. */
  predicate IsSpace(c: char)
  {
    || ('\t' <= c <= '\r')
    || c == ' ' || c == '\U{00A0}' || c == '\U{1680}'
    || ('\U{2000}' <= c <= '\U{200A}')
    || c == '\U{2028}' || c == '\U{2029}' || c == '\U{202F}' || c == '\U{205F}'
    || c == '\U{3000}' || c == '\U{FEFF}'
  }

  predicate AllSpace(s: string)
  {
    forall i :: 0 <= i < |s| ==> IsSpace(s[i])
  }

  predicate NoSpace(s: string)
  {
    forall i :: 0 <= i < |s| ==> !IsSpace(s[i])
  }

  /** The number of whitespace characters `s` starts with. */
  function LeadingSpace(s: string): (n: nat)
    ensures n <= |s| && AllSpace(s[..n])
    ensures n < |s| ==> !IsSpace(s[n])
  {
    if s != [] && IsSpace(s[0]) then
      var m := LeadingSpace(s[1..]);
      var h := s[..m + 1];
      assert AllSpace(h) by {
        forall k | 0 <= k < |h| ensures IsSpace(h[k]) {
          if k > 0 { assert h[k] == s[1..][..m][k - 1]; }
        }
      }
      m + 1
    else 0
  }

  /** The number of whitespace characters `s` ends with. */
  function TrailingSpace(s: string): (n: nat)
    ensures n <= |s|
    ensures forall k :: |s| - n <= k < |s| ==> IsSpace(s[k])
    ensures n < |s| ==> !IsSpace(s[|s| - 1 - n])
  {
    if s != [] && IsSpace(s[|s| - 1]) then
      var p := s[..|s| - 1];
      var m := TrailingSpace(p);
      assert forall k :: |s| - 1 - m <= k < |s| - 1 ==> s[k] == p[k];
      m + 1
    else 0
  }

  /** `s.trimStart()`: `s` without its leading whitespace. */
  function TrimStart(s: string): string
  {
    s[LeadingSpace(s)..]
  }

  /** `s.trim()`: `s` without its leading and its trailing whitespace. */
  function Trim(s: string): string
  {
    var i := LeadingSpace(s);
    if i == |s| then [] else s[i..|s| - TrailingSpace(s)]
  }

  /** `Trim` keeps the slice of its input that starts after the leading whitespace. */
  lemma TrimIsSlice(s: string)
    ensures var i := LeadingSpace(s);
            var j := i + |Trim(s)|;
            && j <= |s| && Trim(s) == s[i..j]
            && AllSpace(s[..i])
  {
  }

  /** What `Trim` cuts off at the end is whitespace. */
  lemma TrimCutsSpaceAfter(s: string)
    ensures var j := LeadingSpace(s) + |Trim(s)|;
            j <= |s| && AllSpace(s[j..])
  {
    var i := LeadingSpace(s);
    if i < |s| {
      var j := |s| - TrailingSpace(s);
      assert forall k :: 0 <= k < |s| - j ==> s[j..][k] == s[j + k];
    }
  }

  /** `Trim` leaves no whitespace at either end. */
  lemma TrimEnds(s: string)
    ensures Trim(s) == [] || (!IsSpace(Trim(s)[0]) && !IsSpace(Trim(s)[|Trim(s)| - 1]))
  {
  }

  /** `Trim` is blank exactly when its input is all whitespace. */
  lemma TrimBlank(s: string)
    ensures Trim(s) == [] <==> AllSpace(s)
  {
    TrimIsSlice(s);
    var i := LeadingSpace(s);
    if Trim(s) == [] {
      assert i == |s| && s[..i] == s;
    }
  }

  /** Index of the first whitespace character of `s`, or `|s|` when there is none. */
  function FirstSpace(s: string): (i: nat)
    ensures i <= |s|
    ensures NoSpace(s[..i])
    ensures i < |s| ==> IsSpace(s[i])
  {
    if s == [] || IsSpace(s[0]) then 0
    else
      var k := FirstSpace(s[1..]);
      assert s[..k + 1] == [s[0]] + s[1..][..k];
      k + 1
  }

  /** `s.split(/\s+/)`: the pieces between maximal runs of whitespace. A run at
      either end leaves an empty piece there, as in JavaScript. */
  function SplitOnSpace(s: string): (parts: seq<string>)
    ensures |parts| >= 1
    decreases |s|
  {
    var i := FirstSpace(s);
    if i == |s| then [s]
    else
      var rest := TrimStart(s[i..]);
      [s[..i]] + SplitOnSpace(rest)
  }

  /** `pat` occurs in `s` at index `k`. */
  predicate OccursAt(s: string, pat: string, k: int)
  {
    0 <= k && k + |pat| <= |s| && s[k..k + |pat|] == pat
  }

  function IndexFrom(s: string, pat: string, from: nat): (i: int)
    ensures i == -1 || (from <= i && OccursAt(s, pat, i))
    ensures forall k :: from <= k && (i == -1 || k < i) ==> !OccursAt(s, pat, k)
    decreases |s| - from
  {
    if from + |pat| > |s| then -1
    else if s[from..from + |pat|] == pat then from
    else IndexFrom(s, pat, from + 1)
  }

  /** `s.indexOf(pat)`: the first index at which `pat` occurs, or -1. */
  function IndexOf(s: string, pat: string): (i: int)
    ensures i == -1 || OccursAt(s, pat, i)
    ensures forall k :: 0 <= k && (i == -1 || k < i) ==> !OccursAt(s, pat, k)
  {
    IndexFrom(s, pat, 0)
  }

  /** `s.lastIndexOf(c)` for a one-character search string: the last index holding `c`, or -1. */
  function LastIndexOf(s: string, c: char): (i: int)
    ensures -1 <= i < |s|
    ensures i >= 0 ==> s[i] == c
    ensures forall k :: i < k < |s| ==> s[k] != c
  {
    if s == [] then -1
    else if s[|s| - 1] == c then |s| - 1
    else LastIndexOf(s[..|s| - 1], c)
  }

  /** ECMAScript's GetSubstitution for a string pattern (no capture groups): in the
      replacement, `$$` stands for `$`, `$&` for the matched text, `` $` `` for the text
      before the match and `$'` for the text after it; every other character, and every
      other `$`, is copied. */
  function Substitution(t: string, matched: string, before: string, after: string): string
    decreases |t|
  {
    if t == [] then []
    else if |t| >= 2 && t[0] == '$' && t[1] == '$' then "$" + Substitution(t[2..], matched, before, after)
    else if |t| >= 2 && t[0] == '$' && t[1] == '&' then matched + Substitution(t[2..], matched, before, after)
    else if |t| >= 2 && t[0] == '$' && t[1] == '`' then before + Substitution(t[2..], matched, before, after)
    else if |t| >= 2 && t[0] == '$' && t[1] == '\'' then after + Substitution(t[2..], matched, before, after)
    else [t[0]] + Substitution(t[1..], matched, before, after)
  }

  /** A replacement without `$` is copied unchanged. */
  lemma {:induction false} SubstitutionWithoutDollar(t: string, matched: string, before: string, after: string)
    requires '$' !in t
    ensures Substitution(t, matched, before, after) == t
    decreases |t|
  {
    if t != [] {
      assert t[0] != '$';
      assert '$' !in t[1..] by {
        forall k | 0 <= k < |t[1..]| ensures t[1..][k] != '$' { assert t[1..][k] == t[k + 1]; }
      }
      SubstitutionWithoutDollar(t[1..], matched, before, after);
      assert t == [t[0]] + t[1..];
    }
  }

  /** `s.replace(pat, rep)` with a string pattern: only the first occurrence is replaced,
      and `rep` goes through GetSubstitution. */
  function ReplaceFirst(s: string, pat: string, rep: string): (r: string)
  {
    var i := IndexOf(s, pat);
    if i < 0 then s
    else s[..i] + Substitution(rep, pat, s[..i], s[i + |pat|..]) + s[i + |pat|..]
  }

  /** The first occurrence of `pat` replaced by `rep` taken literally. This is what `replace`
      does when the replacement is given as a function; it is what the editor evidently means. */
  function ReplaceFirstLiteral(s: string, pat: string, rep: string): (r: string)
    ensures IndexOf(s, pat) < 0 ==> r == s
    ensures IndexOf(s, pat) >= 0 ==>
              |r| == |s| - |pat| + |rep| && OccursAt(r, rep, IndexOf(s, pat))
    ensures IndexOf(s, pat) >= 0 ==>
              r[..IndexOf(s, pat)] == s[..IndexOf(s, pat)]
              && r[IndexOf(s, pat) + |rep|..] == s[IndexOf(s, pat) + |pat|..]
  {
    var i := IndexOf(s, pat);
    if i < 0 then s
    else
      var r := s[..i] + rep + s[i + |pat|..];
      assert r[i..i + |rep|] == rep;
      r
  }

  /** The two replacements agree whenever the replacement holds no `$`. */
  lemma {:induction false} ReplaceAgreesWithoutDollar(s: string, pat: string, rep: string)
    requires '$' !in rep
    ensures ReplaceFirst(s, pat, rep) == ReplaceFirstLiteral(s, pat, rep)
  {
    var i := IndexOf(s, pat);
    if i >= 0 {
      var before, after := s[..i], s[i + |pat|..];
      SubstitutionWithoutDollar(rep, pat, before, after);
      assert ReplaceFirst(s, pat, rep) == before + Substitution(rep, pat, before, after) + after;
    }
  }
}
