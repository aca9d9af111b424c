/**
 * The Python `str` operations the scrapers and the API rely on: `strip`,
 * `lower`, `split`, `join`, `in`, `startswith` and slicing, stated over
 * `seq<char>`.
 */
module Text {

  /** Python's `str.isspace` for a single character: the characters `strip()` removes. */
  predicate IsSpace(c: char) {
    || ('\t' <= c <= '\r')
    || ('\U{1C}' <= c <= '\U{1F}')
    || c == ' '
    || c == '\U{85}'
    || c == '\U{A0}'
    || c == '\U{1680}'
    || ('\U{2000}' <= c <= '\U{200A}')
    || c == '\U{2028}'
    || c == '\U{2029}'
    || c == '\U{202F}'
    || c == '\U{205F}'
    || c == '\U{3000}'
  }

  predicate AllSpace(s: string) {
    forall i :: 0 <= i < |s| ==> IsSpace(s[i])
  }

  /** Neither end of `s` is whitespace: `s.strip() == s`. */
  predicate IsStripped(s: string) {
    s == [] || (!IsSpace(s[0]) && !IsSpace(s[|s| - 1]))
  }

  /** Number of leading whitespace characters of `s`. */
  function LeadingSpace(s: string): (i: nat)
    ensures i <= |s|
    ensures forall k :: 0 <= k < i ==> IsSpace(s[k])
    ensures i < |s| ==> !IsSpace(s[i])
  {
    if s == [] || !IsSpace(s[0]) then 0 else 1 + LeadingSpace(s[1..])
  }

  /** Length of `s` without its trailing whitespace. */
  function TrailingStart(s: string): (j: nat)
    ensures j <= |s|
    ensures forall k :: j <= k < |s| ==> IsSpace(s[k])
    ensures j > 0 ==> !IsSpace(s[j - 1])
  {
    if s == [] || !IsSpace(s[|s| - 1]) then |s| else TrailingStart(s[..|s| - 1])
  }

  /** Python's `s.strip()`. */
  function Strip(s: string): (r: string)
    ensures IsStripped(r) && |r| <= |s|
  {
    var i := LeadingSpace(s);
    var j := TrailingStart(s);
    if j <= i then "" else s[i..j]
  }

  /**
   * `strip()` removes exactly the leading and trailing whitespace: the result
   * is a slice of `s` with only whitespace outside it, and it is empty
   * exactly when `s` is all whitespace.
   */
  lemma {:induction false} StripSpec(s: string)
    ensures exists i, j :: 0 <= i <= j <= |s| && Strip(s) == s[i..j] && AllSpace(s[..i]) && AllSpace(s[j..])
    ensures Strip(s) == [] <==> AllSpace(s)
  {
    var i := LeadingSpace(s);
    var j := TrailingStart(s);
    if j <= i {
      assert AllSpace(s) by {
        forall k | 0 <= k < |s| ensures IsSpace(s[k]) {
        }
      }
      assert Strip(s) == s[i..i] && AllSpace(s[..i]) && AllSpace(s[i..]);
    } else {
      assert Strip(s) == s[i..j] && AllSpace(s[..i]) && AllSpace(s[j..]);
      assert !IsSpace(s[i]);
    }
  }

  lemma {:induction false} StripOfStripped(s: string)
    requires IsStripped(s)
    ensures Strip(s) == s
  {
    if s != [] {
      assert LeadingSpace(s) == 0;
      assert TrailingStart(s) == |s|;
    }
  }

  /** ASCII upper-case letters map to lower case; every other character is kept. */
  function LowerChar(c: char): char {
    if 'A' <= c <= 'Z' then (c as int + 32) as char else c
  }

  predicate IsLower(s: string) {
    forall i :: 0 <= i < |s| ==> !('A' <= s[i] <= 'Z')
  }

  /** Python's `s.lower()` restricted to the ASCII letters. */
  function Lower(s: string): (r: string)
    ensures |r| == |s| && IsLower(r)
    ensures forall i :: 0 <= i < |s| ==> r[i] == LowerChar(s[i])
    ensures IsLower(s) ==> r == s
  {
    seq(|s|, i requires 0 <= i < |s| => LowerChar(s[i]))
  }

  lemma {:induction false} LowerKeepsSpace(c: char)
    ensures IsSpace(LowerChar(c)) == IsSpace(c)
  {
  }

  /** Lower-casing an already stripped string leaves it stripped and keeps its emptiness. */
  lemma {:induction false} LowerOfStripped(s: string)
    requires IsStripped(s)
    ensures IsStripped(Lower(s)) && (Lower(s) == [] <==> s == [])
  {
    if s != [] {
      LowerKeepsSpace(s[0]);
      LowerKeepsSpace(s[|s| - 1]);
    }
  }

  /** Index of the first `c` in `s`, or `|s|` when there is none. */
  function IndexOf(s: string, c: char): (i: nat)
    ensures i <= |s|
    ensures i < |s| ==> s[i] == c
    ensures forall k :: 0 <= k < i ==> s[k] != c
    ensures i == |s| <==> c !in s
  {
    if s == [] then 0
    else if s[0] == c then 0
    else 1 + IndexOf(s[1..], c)
  }

  /** Python's `s.split(c, 1)[0]`: the text before the first `c`, or all of `s`. */
  function BeforeFirst(s: string, c: char): (r: string)
    ensures r <= s && c !in r
    ensures |r| < |s| <==> c in s
    ensures |r| < |s| ==> s[|r|] == c
  {
    s[..IndexOf(s, c)]
  }

  /** Python's `s.split(c)`: the pieces between the occurrences of `c`. */
  function Split(s: string, c: char): (r: seq<string>)
    ensures |r| >= 1
    ensures c !in s ==> r == [s]
    decreases |s|
  {
    var i := IndexOf(s, c);
    if i == |s| then [s] else [s[..i]] + Split(s[i + 1..], c)
  }

  /** Python's `sep.join(ps)`. */
  function Join(ps: seq<string>, sep: string): string {
    if ps == [] then ""
    else if |ps| == 1 then ps[0]
    else ps[0] + sep + Join(ps[1..], sep)
  }

  /** A text with a separator splits into the text before it and the split of the rest. */
  lemma {:induction false} SplitStep(s: string, c: char)
    requires c in s
    ensures var i := IndexOf(s, c); Split(s, c) == [s[..i]] + Split(s[i + 1..], c)
  {
  }

  /** No piece of a split holds the separator. */
  lemma {:induction false} SplitPiecesFree(s: string, c: char)
    ensures forall k :: 0 <= k < |Split(s, c)| ==> c !in Split(s, c)[k]
    decreases |s|
  {
    if c in s {
      var i := IndexOf(s, c);
      SplitStep(s, c);
      SplitPiecesFree(s[i + 1..], c);
      assert c !in s[..i];
    }
  }

  /** A sequence is its part before `i`, its element at `i` and its part after `i`. */
  lemma {:induction false} SliceAround<T>(s: seq<T>, i: nat)
    requires i < |s|
    ensures s[..i] + [s[i]] + s[i + 1..] == s
  {
    assert s[..i] + [s[i]] + s[i + 1..] == s[..i] + s[i..];
  }

  lemma {:induction false} JoinCons(a: string, ps: seq<string>, sep: string)
    requires ps != []
    ensures Join([a] + ps, sep) == a + sep + Join(ps, sep)
  {
    assert ([a] + ps)[1..] == ps;
  }

  /** Joining the pieces of a split with the same separator gives back the text. */
  lemma {:induction false} JoinSplit(s: string, c: char)
    ensures Join(Split(s, c), [c]) == s
    decreases |s|
  {
    if c in s {
      var i := IndexOf(s, c);
      var t := s[i + 1..];
      SplitStep(s, c);
      JoinCons(s[..i], Split(t, c), [c]);
      JoinSplit(t, c);
      SliceAround(s, i);
    }
  }

  /** Splitting a join of separator-free pieces gives back the pieces. */
  lemma {:induction false} SplitJoin(ps: seq<string>, c: char)
    requires |ps| >= 1
    requires forall k :: 0 <= k < |ps| ==> c !in ps[k]
    ensures Split(Join(ps, [c]), c) == ps
  {
    if |ps| > 1 {
      var s := Join(ps, [c]);
      assert s == ps[0] + ([c] + Join(ps[1..], [c]));
      IndexOfPrefix(ps[0], [c] + Join(ps[1..], [c]), c);
      assert s[|ps[0]| + 1..] == Join(ps[1..], [c]);
      SplitJoin(ps[1..], c);
    }
  }

  lemma {:induction false} IndexOfPrefix(a: string, b: string, c: char)
    requires c !in a && b != [] && b[0] == c
    ensures IndexOf(a + b, c) == |a|
  {
    if a != [] {
      assert (a + b)[1..] == a[1..] + b;
      IndexOfPrefix(a[1..], b, c);
    }
  }

  /**
   * The comprehension `[p.strip() for p in ps if p.strip()]`: the stripped
   * pieces, in order, without the blank ones.
   */
  function NonBlankStripped(ps: seq<string>): (r: seq<string>)
    ensures |r| <= |ps|
    ensures forall k :: 0 <= k < |r| ==> r[k] != "" && IsStripped(r[k])
  {
    if ps == [] then []
    else
      var rest := NonBlankStripped(ps[1..]);
      var p := Strip(ps[0]);
      if p != "" then [p] + rest else rest
  }

  /** A piece of the cleaned list is the stripped form of some input piece. */
  lemma {:induction false} NonBlankStrippedFrom(ps: seq<string>, k: nat)
    requires k < |NonBlankStripped(ps)|
    ensures exists j :: 0 <= j < |ps| && NonBlankStripped(ps)[k] == Strip(ps[j])
  {
    var d := if Strip(ps[0]) != "" then 1 else 0;
    if k >= d {
      NonBlankStrippedFrom(ps[1..], k - d);
      assert NonBlankStripped(ps)[k] == NonBlankStripped(ps[1..])[k - d];
      var j :| 0 <= j < |ps[1..]| && NonBlankStripped(ps[1..])[k - d] == Strip(ps[1..][j]);
      assert ps[1..][j] == ps[j + 1];
    }
  }

  /** `strip()` removes characters and never adds one. */
  lemma {:induction false} StripWithout(s: string, c: char)
    requires c !in s
    ensures c !in Strip(s)
  {
    var i := LeadingSpace(s);
    var j := TrailingStart(s);
    if i < j {
      assert forall k :: 0 <= k < j - i ==> s[i..j][k] == s[i + k];
    }
  }

  /** Cleaning pieces that lack `c` gives pieces that lack `c`. */
  lemma {:induction false} NonBlankStrippedWithout(ps: seq<string>, c: char)
    requires forall k :: 0 <= k < |ps| ==> c !in ps[k]
    ensures forall k :: 0 <= k < |NonBlankStripped(ps)| ==> c !in NonBlankStripped(ps)[k]
  {
    if ps != [] {
      var tail := ps[1..];
      assert forall k :: 0 <= k < |tail| ==> tail[k] == ps[k + 1];
      NonBlankStrippedWithout(tail, c);
      StripWithout(ps[0], c);
    }
  }

  /** Pieces that are already stripped and non-blank pass through unchanged. */
  lemma {:induction false} NonBlankStrippedOfClean(ps: seq<string>)
    requires forall k :: 0 <= k < |ps| ==> ps[k] != "" && IsStripped(ps[k])
    ensures NonBlankStripped(ps) == ps
  {
    if ps != [] {
      StripOfStripped(ps[0]);
      var tail := ps[1..];
      assert forall k :: 0 <= k < |tail| ==> tail[k] == ps[k + 1];
      NonBlankStrippedOfClean(tail);
      assert NonBlankStripped(ps) == [ps[0]] + NonBlankStripped(tail);
    }
  }

  /** A first character that is not whitespace stays first after `strip()`. */
  lemma {:induction false} JoinIsStripped(ps: seq<string>, sep: string)
    requires forall k :: 0 <= k < |ps| ==> ps[k] != "" && IsStripped(ps[k])
    ensures var s := Join(ps, sep); IsStripped(s) && (ps != [] ==> s != [] && s[0] == ps[0][0])
  {
    if |ps| > 1 {
      JoinIsStripped(ps[1..], sep);
      var t := Join(ps[1..], sep);
      assert Join(ps, sep) == ps[0] + sep + t;
    }
  }

  /**
   * Splitting on a separator, stripping and dropping blanks recovers any
   * list of separator-free, stripped, non-blank pieces from its join.
   */
  lemma {:induction false} SplitCleanJoin(ps: seq<string>, c: char)
    requires forall k :: 0 <= k < |ps| ==> ps[k] != "" && IsStripped(ps[k]) && c !in ps[k]
    ensures NonBlankStripped(Split(Strip(Join(ps, [c])), c)) == ps
  {
    JoinIsStripped(ps, [c]);
    StripOfStripped(Join(ps, [c]));
    if ps == [] {
      assert Split("", c) == [""];
    } else {
      SplitJoin(ps, c);
      NonBlankStrippedOfClean(ps);
    }
  }

  /** Index of the last `c` in `s`, or -1 when there is none. */
  function LastIndexOf(s: string, c: char): (i: int)
    ensures -1 <= i < |s|
    ensures i >= 0 ==> s[i] == c
    ensures forall k :: i < k < |s| ==> s[k] != c
    ensures i == -1 <==> c !in s
  {
    if s == [] then -1
    else if s[|s| - 1] == c then |s| - 1
    else LastIndexOf(s[..|s| - 1], c)
  }

  /**
   * Python's `s.split(c)[-1]`: the text after the last `c`, or all of `s`;
   * that is, the longest suffix of `s` without a `c`.
   */
  function AfterLast(s: string, c: char): (r: string)
    ensures |r| <= |s| && r == s[|s| - |r|..] && c !in r
    ensures |r| < |s| <==> c in s
    ensures |r| < |s| ==> s[|s| - |r| - 1] == c
  {
    s[LastIndexOf(s, c) + 1..]
  }

  /** Python's `s[:n]` for a non-negative `n`. */
  function Take(s: string, n: nat): (r: string)
    ensures |r| <= n && r <= s
    ensures |s| <= n ==> r == s
    ensures |s| > n ==> |r| == n
  {
    if |s| <= n then s else s[..n]
  }

  /** Python's `sub in s` for strings. */
  predicate Contains(s: string, sub: string)
    decreases |s|
  {
    sub <= s || (s != [] && Contains(s[1..], sub))
  }

  /** `sub` occurs in `s` starting at index `i`. */
  predicate OccursAt(s: string, sub: string, i: nat) {
    i + |sub| <= |s| && s[i..i + |sub|] == sub
  }

  lemma {:induction false} ContainsAt(s: string, sub: string, i: nat)
    requires OccursAt(s, sub, i)
    ensures Contains(s, sub)
    decreases i
  {
    if i > 0 {
      assert s[1..][i - 1..i - 1 + |sub|] == sub;
      ContainsAt(s[1..], sub, i - 1);
    } else {
      assert s[..|sub|] == sub;
    }
  }

  lemma {:induction false} ContainsWitness(s: string, sub: string)
    requires Contains(s, sub)
    ensures exists i: nat :: OccursAt(s, sub, i)
    decreases |s|
  {
    if sub <= s {
      assert OccursAt(s, sub, 0);
    } else {
      ContainsWitness(s[1..], sub);
      var i: nat :| OccursAt(s[1..], sub, i);
      assert s[i + 1..i + 1 + |sub|] == s[1..][i..i + |sub|];
      assert OccursAt(s, sub, i + 1);
    }
  }

  /** `Contains` is exactly the occurrence of `sub` as a contiguous slice of `s`. */
  lemma {:induction false} ContainsIff(s: string, sub: string)
    ensures Contains(s, sub) <==> exists i: nat :: OccursAt(s, sub, i)
  {
    if Contains(s, sub) {
      ContainsWitness(s, sub);
    }
    if exists i: nat :: OccursAt(s, sub, i) {
      var i: nat :| OccursAt(s, sub, i);
      ContainsAt(s, sub, i);
    }
  }

  /** Python's `str(n)` for a natural number. */
  function NatToString(n: nat): (r: string)
    ensures |r| >= 1
    ensures forall k :: 0 <= k < |r| ==> '0' <= r[k] <= '9'
    ensures n > 0 ==> r[0] != '0'
  {
    if n < 10 then [('0' as int + n) as char]
    else NatToString(n / 10) + [('0' as int + n % 10) as char]
  }

  /** Python's `str(n)` for any integer. */
  function IntToString(n: int): (r: string)
    ensures |r| >= 1
  {
    if n < 0 then "-" + NatToString(-n) else NatToString(n)
  }

  /** Python's `int(s)` on a string of decimal digits. */
  function ParseNat(s: string): nat
    requires forall k :: 0 <= k < |s| ==> '0' <= s[k] <= '9'
  {
    if s == [] then 0 else 10 * ParseNat(s[..|s| - 1]) + (s[|s| - 1] as int - '0' as int)
  }

  /** `int(str(n)) == n`: the decimal rendering of a number loses nothing. */
  lemma {:induction false} ParseNatToString(n: nat)
    ensures ParseNat(NatToString(n)) == n
  {
    if n >= 10 {
      var s := NatToString(n);
      assert s[..|s| - 1] == NatToString(n / 10);
      ParseNatToString(n / 10);
    }
  }
}
