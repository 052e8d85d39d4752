/**
 * The JavaScript string built-ins the core relies on, as functions over `string`:
 * the `\s` / `trim` white-space class, `trim`, `split(/\s+/)`, `split(',')`, `join`,
 * ASCII `toUpperCase` / `toLowerCase`, `repeat`, `startsWith` and the decimal
 * rendering of a number inside a template literal.
 *
 * The recursive helpers walk an index over a fixed string (rather than slicing),
 * so that the verifier can also evaluate them on concrete literals.
 */
module Text {

  /** The white-space class shared by `\s` and `String.prototype.trim`
      (WhiteSpace and LineTerminator of ECMA-262). */
  predicate IsWs(c: char) {
    || c == '\t' || c == '\n' || c == '\U{000B}' || c == '\U{000C}' || c == '\r' || c == ' '
    || c == '\U{00A0}' || c == '\U{1680}' || ('\U{2000}' <= c <= '\U{200A}')
    || c == '\U{2028}' || c == '\U{2029}' || c == '\U{202F}' || c == '\U{205F}'
    || c == '\U{3000}' || c == '\U{FEFF}'
  }

  /** The `\d` class: ASCII digits only. */
  predicate IsDigit(c: char) {
    '0' <= c <= '9'
  }

  predicate AllWs(s: string, i: nat, j: nat)
    requires i <= j <= |s|
  {
    forall k :: i <= k < j ==> IsWs(s[k])
  }

  /** The end of the run of white space that starts at `i`. */
  function WsRunEnd(s: string, i: nat): (j: nat)
    requires i <= |s|
    ensures i <= j <= |s|
    ensures AllWs(s, i, j)
    ensures j < |s| ==> !IsWs(s[j])
    decreases |s| - i
  {
    if i == |s| || !IsWs(s[i]) then i else WsRunEnd(s, i + 1)
  }

  /** The end of the run of non-white-space characters that starts at `i`. */
  function WordEnd(s: string, i: nat): (j: nat)
    requires i <= |s|
    ensures i <= j <= |s|
    ensures forall k :: i <= k < j ==> !IsWs(s[k])
    ensures j < |s| ==> IsWs(s[j])
    decreases |s| - i
  {
    if i == |s| || IsWs(s[i]) then i else WordEnd(s, i + 1)
  }

  /** The start of the run of white space that ends at `j`. */
  function WsRunStart(s: string, j: nat): (k: nat)
    requires j <= |s|
    ensures k <= j
    ensures AllWs(s, k, j)
    ensures k > 0 ==> !IsWs(s[k - 1])
  {
    if j == 0 || !IsWs(s[j - 1]) then j else WsRunStart(s, j - 1)
  }

  /** `String.prototype.trim`: the text between the leading and the trailing white space. */
  function Trim(s: string): (t: string)
    ensures |t| <= |s|
    ensures t == [] <==> AllWs(s, 0, |s|)
    ensures t != [] ==> !IsWs(t[0]) && !IsWs(t[|t| - 1])
  {
    var a := WsRunEnd(s, 0);
    if a == |s| then [] else s[a..WsRunStart(s, |s|)]
  }

  /** JavaScript's `!s || !s.trim()`. */
  predicate IsBlank(s: string) {
    Trim(s) == []
  }

  // ---------------------------------------------------------------------------
  // Runs of non-white-space characters: the reference meaning of a word count.

  /** The number of maximal runs of non-white-space characters in s[i..j]; `afterWs`
      says whether position i follows white space (or the start of the text). */
  function RunsIn(s: string, i: nat, j: nat, afterWs: bool): nat
    requires i <= j <= |s|
    decreases j - i
  {
    if i == j then 0
    else (if afterWs && !IsWs(s[i]) then 1 else 0) + RunsIn(s, i + 1, j, IsWs(s[i]))
  }

  /** The number of maximal runs of non-white-space characters in s. */
  function WordRuns(s: string): nat {
    RunsIn(s, 0, |s|, true)
  }

  lemma {:induction false} RunsOverWs(s: string, i: nat, k: nat, j: nat, afterWs: bool)
    requires i < k <= j <= |s| && AllWs(s, i, k)
    ensures RunsIn(s, i, j, afterWs) == RunsIn(s, k, j, true)
    decreases k - i
  {
    if i + 1 < k {
      RunsOverWs(s, i + 1, k, j, true);
    }
  }

  lemma {:induction false} RunsOverWord(s: string, i: nat, k: nat, j: nat, afterWs: bool)
    requires i < k <= j <= |s|
    requires forall m :: i <= m < k ==> !IsWs(s[m])
    ensures RunsIn(s, i, j, afterWs) == (if afterWs then 1 else 0) + RunsIn(s, k, j, false)
    decreases k - i
  {
    if i + 1 < k {
      RunsOverWord(s, i + 1, k, j, false);
    }
  }

  lemma {:induction false} NoRunsInWs(s: string, i: nat, j: nat, afterWs: bool)
    requires i <= j <= |s| && AllWs(s, i, j)
    ensures RunsIn(s, i, j, afterWs) == 0
    decreases j - i
  {
    if i < j {
      NoRunsInWs(s, i + 1, j, true);
    }
  }

  lemma {:induction false} RunsTrailingWs(s: string, i: nat, k: nat, j: nat, afterWs: bool)
    requires i <= k <= j <= |s| && AllWs(s, k, j)
    ensures RunsIn(s, i, j, afterWs) == RunsIn(s, i, k, afterWs)
    decreases k - i
  {
    if i < k {
      RunsTrailingWs(s, i + 1, k, j, IsWs(s[i]));
    } else {
      NoRunsInWs(s, k, j, afterWs);
    }
  }

  lemma {:induction false} RunsOfSlice(s: string, a: nat, b: nat, i: nat, j: nat, afterWs: bool)
    requires a <= b <= |s| && i <= j <= b - a
    ensures RunsIn(s[a..b], i, j, afterWs) == RunsIn(s, a + i, a + j, afterWs)
    decreases j - i
  {
    if i < j {
      RunsOfSlice(s, a, b, i + 1, j, IsWs(s[a + i]));
    }
  }

  lemma {:induction false} RunsSplitAt(s: string, i: nat, k: nat, j: nat, afterWs: bool)
    requires i <= k <= j <= |s|
    ensures RunsIn(s, i, j, afterWs)
         == RunsIn(s, i, k, afterWs) + RunsIn(s, k, j, if k == i then afterWs else IsWs(s[k - 1]))
    decreases k - i
  {
    if i < k {
      RunsSplitAt(s, i + 1, k, j, IsWs(s[i]));
    }
  }

  /** Words joined by single spaces form exactly one run each. */
  lemma {:induction false} RunsOfJoinedWords(ws: seq<string>)
    requires forall w :: w in ws ==> w != [] && forall c :: c in w ==> !IsWs(c)
    ensures WordRuns(JoinWith(ws, " ")) == |ws|
  {
    if |ws| >= 1 {
      var a := ws[0];
      assert a in ws;
      assert forall m :: 0 <= m < |a| ==> a[m] in a;
      if |ws| == 1 {
        RunsOverWord(a, 0, |a|, |a|, true);
      } else {
        var rest := JoinWith(ws[1..], " ");
        var s := a + " " + rest;
        assert JoinWith(ws, " ") == s;
        assert forall m :: 0 <= m < |a| ==> s[m] == a[m];
        RunsSplitAt(s, 0, |a|, |s|, true);
        RunsOverWord(s, 0, |a|, |a|, true);
        RunsOverWs(s, |a|, |a| + 1, |s|, false);
        assert s[|a| + 1..|s|] == rest;
        RunsOfSlice(s, |a| + 1, |s|, 0, |rest|, true);
        assert forall w :: w in ws[1..] ==> w in ws;
        RunsOfJoinedWords(ws[1..]);
      }
    }
  }

  // ---------------------------------------------------------------------------
  // `split(/\s+/)`

  /** `s.slice(i).split(/\s+/)`: the pieces between maximal runs of white space. */
  function SplitWsFrom(s: string, i: nat): (parts: seq<string>)
    requires i <= |s|
    ensures |parts| >= 1
    decreases |s| - i
  {
    var e := WordEnd(s, i);
    if e == |s| then [s[i..]] else [s[i..e]] + SplitWsFrom(s, WsRunEnd(s, e))
  }

  /** `s.split(/\s+/)` */
  function SplitWs(s: string): (parts: seq<string>)
    ensures |parts| >= 1
  {
    SplitWsFrom(s, 0)
  }

  lemma {:induction false} SplitWsFromCountsRuns(t: string, i: nat)
    requires i < |t| && !IsWs(t[i]) && !IsWs(t[|t| - 1])
    ensures |SplitWsFrom(t, i)| == RunsIn(t, i, |t|, true)
    decreases |t| - i
  {
    var e := WordEnd(t, i);
    RunsOverWord(t, i, e, |t|, true);
    if e < |t| {
      var n := WsRunEnd(t, e);
      assert n < |t|;
      RunsOverWs(t, e, n, |t|, false);
      SplitWsFromCountsRuns(t, n);
    }
  }

  /** Splitting trimmed, non-blank text on white space yields one piece per run. */
  lemma SplitTrimmedCountsRuns(s: string)
    requires !IsBlank(s)
    ensures |SplitWs(Trim(s))| == WordRuns(s)
  {
    var a := WsRunEnd(s, 0);
    var b := WsRunStart(s, |s|);
    var t := Trim(s);
    assert t == s[a..b];
    SplitWsFromCountsRuns(t, 0);
    RunsOfSlice(s, a, b, 0, |t|, true);
    RunsTrailingWs(s, 0, b, |s|, true);
    if a > 0 {
      RunsOverWs(s, 0, a, b, true);
    }
  }

  /** A blank text has no runs. */
  lemma BlankHasNoRuns(s: string)
    requires IsBlank(s)
    ensures WordRuns(s) == 0
  {
    RunsTrailingWs(s, 0, 0, |s|, true);
  }

  /** The first piece of the split of trimmed, non-blank text is its first word:
      non-empty, free of white space, and followed by white space or the end. */
  lemma FirstPieceIsWord(t: string)
    requires t != [] && !IsWs(t[0])
    ensures var w := SplitWs(t)[0];
      && w != [] && w == t[..|w|]
      && (forall k :: 0 <= k < |w| ==> !IsWs(w[k]))
      && (|w| < |t| ==> IsWs(t[|w|]))
  {
  }

  // ---------------------------------------------------------------------------
  // `split(sep)` for a one-character separator, and `join`

  /** The first index at or after `i` holding `c`, or |s|. */
  function IndexOfFrom(s: string, c: char, i: nat): (j: nat)
    requires i <= |s|
    ensures i <= j <= |s|
    ensures forall k :: i <= k < j ==> s[k] != c
    ensures j < |s| ==> s[j] == c
    decreases |s| - i
  {
    if i == |s| || s[i] == c then i else IndexOfFrom(s, c, i + 1)
  }

  /** `s.split(c)`: the text up to the first `c`, then the split of the rest. */
  function SplitOn(s: string, c: char): (parts: seq<string>)
    ensures |parts| >= 1
    ensures forall p :: p in parts ==> c !in p
    decreases |s|
  {
    var e := IndexOfFrom(s, c, 0);
    if e == |s| then [s] else [s[..e]] + SplitOn(s[e + 1..], c)
  }

  /** `parts.join(sep)` */
  function JoinWith(parts: seq<string>, sep: string): string {
    if |parts| == 0 then ""
    else if |parts| == 1 then parts[0]
    else parts[0] + sep + JoinWith(parts[1..], sep)
  }

  /** Joining the pieces of `split(c)` with `c` gives back the text. */
  lemma {:induction false} SplitOnJoin(s: string, c: char)
    ensures JoinWith(SplitOn(s, c), [c]) == s
    decreases |s|
  {
    var e := IndexOfFrom(s, c, 0);
    if e < |s| {
      var rest := SplitOn(s[e + 1..], c);
      SplitOnJoin(s[e + 1..], c);
      assert ([s[..e]] + rest)[1..] == rest;
      assert s == s[..e] + [c] + s[e + 1..];
    }
  }

  /** Splitting at the first separator keeps the text before it as the first piece. */
  lemma SplitOnAtFirst(x: string, c: char, y: string)
    requires c !in x
    ensures SplitOn(x + [c] + y, c) == [x] + SplitOn(y, c)
  {
    var s := x + [c] + y;
    assert s[|x|] == c;
    assert forall k :: 0 <= k < |x| ==> s[k] == x[k] && x[k] in x;
    assert IndexOfFrom(s, c, 0) == |x|;
    assert s[..|x|] == x;
    assert s[|x| + 1..] == y;
  }

  /** Keeps the `trim`med pieces that are not empty: `.map(s => s.trim()).filter(s => s)`. */
  function TrimmedNonEmpty(parts: seq<string>): (r: seq<string>)
    ensures |r| <= |parts|
    ensures forall p :: p in r ==> p != [] && Trim(p) == p
  {
    if parts == [] then []
    else
      var t := Trim(parts[0]);
      TrimIdempotent(parts[0]);
      (if t == [] then [] else [t]) + TrimmedNonEmpty(parts[1..])
  }

  lemma TrimIdempotent(s: string)
    ensures Trim(Trim(s)) == Trim(s)
  {
    var t := Trim(s);
    if t != [] {
      assert WsRunEnd(t, 0) == 0;
      assert WsRunStart(t, |t|) == |t|;
    }
  }

  /** A text that starts and ends with a non-white-space character is its own trim. */
  lemma TrimKeepsEnds(t: string)
    requires t != [] && !IsWs(t[0]) && !IsWs(t[|t| - 1])
    ensures Trim(t) == t
  {
    assert WsRunEnd(t, 0) == 0;
    assert WsRunStart(t, |t|) == |t|;
  }

  /** The white-space run from i ends at the first non-white-space character. */
  lemma {:induction false} WsRunEndAt(s: string, i: nat, j: nat)
    requires i <= j < |s| && AllWs(s, i, j) && !IsWs(s[j])
    ensures WsRunEnd(s, i) == j
    decreases j - i
  {
    if i < j {
      WsRunEndAt(s, i + 1, j);
    }
  }

  /** The white-space run that ends at j starts after any non-white-space character. */
  lemma {:induction false} WsRunStartAfter(s: string, m: nat, j: nat)
    requires 0 < m <= j <= |s| && !IsWs(s[m - 1])
    ensures WsRunStart(s, j) >= m
    decreases j
  {
    if j > m && IsWs(s[j - 1]) {
      WsRunStartAfter(s, m, j - 1);
    }
  }

  /** A word after leading white space and before white space (or the end) opens
      the trimmed text. */
  lemma TrimOpening(pad: string, w: string, rest: string)
    requires AllWs(pad, 0, |pad|)
    requires w != [] && forall k :: 0 <= k < |w| ==> !IsWs(w[k])
    requires rest == [] || IsWs(rest[0])
    ensures var t := Trim(pad + w + rest);
      |w| <= |t| && t[..|w|] == w && (|w| < |t| ==> IsWs(t[|w|]))
  {
    var s := pad + w + rest;
    var n := |pad| + |w|;
    assert s[..|pad|] == pad && s[|pad|..n] == w;
    assert AllWs(s, 0, |pad|) by {
      forall k | 0 <= k < |pad|
        ensures IsWs(s[k])
      {
        assert s[k] == pad[k];
      }
    }
    assert s[|pad|] == w[0] && s[n - 1] == w[|w| - 1];
    WsRunEndAt(s, 0, |pad|);
    WsRunStartAfter(s, n, |s|);
    var b := WsRunStart(s, |s|);
    assert s[|pad|..b][..|w|] == w;
    if n < b {
      assert s[n] == rest[0];
    }
  }

  /** A non-empty text without white space is its own trim. */
  lemma TrimNoWs(w: string)
    requires w != [] && forall c :: c in w ==> !IsWs(c)
    ensures Trim(w) == w
  {
    assert w[0] in w;
    assert w[|w| - 1] in w;
  }

  /** Leading white space is dropped by `trim`. */
  lemma TrimAfterWs(q: string, a: string)
    requires AllWs(q, 0, |q|) && a != [] && Trim(a) == a
    ensures Trim(q + a) == a
  {
    var s := q + a;
    assert s[|q|] == a[0];
    assert WsRunEnd(s, 0) == |q|;
    assert s[|s| - 1] == a[|a| - 1];
    assert WsRunStart(s, |s|) == |s|;
    assert s[|q|..|s|] == a;
  }

  /** A piece that `split(c)` followed by trimming gives back unchanged. */
  predicate CleanItem(p: string, c: char) {
    p != [] && Trim(p) == p && c !in p
  }

  /** White space without the separator. */
  predicate Padding(q: string, c: char) {
    AllWs(q, 0, |q|) && c !in q
  }

  lemma SplitNoSeparator(s: string, c: char)
    requires c !in s
    ensures SplitOn(s, c) == [s]
  {
    assert forall k :: 0 <= k < |s| ==> s[k] in s;
    assert IndexOfFrom(s, c, 0) == |s|;
  }

  /** Cleaning a list piece by piece: the pieces of a + b that are kept are those of a,
      then those of b. */
  lemma {:induction false} TrimmedNonEmptyAppend(a: seq<string>, b: seq<string>)
    ensures TrimmedNonEmpty(a + b) == TrimmedNonEmpty(a) + TrimmedNonEmpty(b)
    decreases |a|
  {
    if a == [] {
      assert a + b == b;
    } else {
      assert (a + b)[0] == a[0] && (a + b)[1..] == a[1..] + b;
      TrimmedNonEmptyAppend(a[1..], b);
    }
  }

  /** One piece is kept, trimmed, exactly when it is not all white space. */
  lemma TrimmedNonEmptyOne(p: string)
    ensures TrimmedNonEmpty([p]) == (if Trim(p) == [] then [] else [Trim(p)])
  {
    assert [p][1..] == [];
  }

  lemma TrimmedNonEmptyCons(p: string, rest: seq<string>)
    ensures TrimmedNonEmpty([p] + rest) ==
      (if Trim(p) == [] then [] else [Trim(p)]) + TrimmedNonEmpty(rest)
  {
    assert ([p] + rest)[1..] == rest;
  }

  /** The last item, after its padding, reads back as itself. */
  lemma SplitLastItem(a: string, c: char, q: string)
    requires CleanItem(a, c) && Padding(q, c)
    ensures TrimmedNonEmpty(SplitOn(q + a, c)) == [a]
  {
    SplitNoSeparator(q + a, c);
    TrimAfterWs(q, a);
    TrimmedNonEmptyCons(q + a, []);
  }

  /** Padding alone reads back as nothing. */
  lemma SplitPaddingOnly(c: char, q: string)
    requires Padding(q, c)
    ensures TrimmedNonEmpty(SplitOn(q, c)) == []
  {
    SplitNoSeparator(q, c);
    TrimmedNonEmptyCons(q, []);
  }

  /** The first of several items reads back as itself, followed by the rest. */
  lemma SplitFirstItem(a: string, c: char, q: string, tail: string)
    requires CleanItem(a, c) && Padding(q, c)
    ensures TrimmedNonEmpty(SplitOn(q + a + [c] + tail, c)) == [a] + TrimmedNonEmpty(SplitOn(tail, c))
  {
    assert c !in q + a;
    SplitOnAtFirst(q + a, c, tail);
    TrimAfterWs(q, a);
    TrimmedNonEmptyCons(q + a, SplitOn(tail, c));
  }

  /** Items joined by the separator `c` followed by white space `pad` are read back by
      `split(c)` followed by trimming and dropping empty pieces, whatever white space
      `q` precedes them. */
  lemma {:induction false} SplitJoinedItems(items: seq<string>, c: char, pad: string, q: string)
    requires forall p :: p in items ==> CleanItem(p, c)
    requires Padding(pad, c) && Padding(q, c)
    ensures TrimmedNonEmpty(SplitOn(q + JoinWith(items, [c] + pad), c)) == items
  {
    if |items| == 0 {
      assert q + "" == q;
      SplitPaddingOnly(c, q);
    } else if |items| == 1 {
      assert items[0] in items;
      SplitLastItem(items[0], c, q);
    } else {
      var a := items[0];
      assert a in items;
      var tail := pad + JoinWith(items[1..], [c] + pad);
      assert q + JoinWith(items, [c] + pad) == q + a + [c] + tail;
      SplitFirstItem(a, c, q, tail);
      assert forall p :: p in items[1..] ==> p in items;
      SplitJoinedItems(items[1..], c, pad, pad);
      assert [a] + items[1..] == items;
    }
  }

  // ---------------------------------------------------------------------------
  // Case mapping (ASCII letters only), `repeat`, `startsWith`

  function UpperChar(c: char): char {
    if 'a' <= c <= 'z' then (c as int - 'a' as int + 'A' as int) as char else c
  }

  function LowerChar(c: char): char {
    if 'A' <= c <= 'Z' then (c as int - 'A' as int + 'a' as int) as char else c
  }

  /** `toUpperCase`, for ASCII letters */
  function ToUpper(s: string): (r: string)
    ensures |r| == |s| && forall k :: 0 <= k < |s| ==> r[k] == UpperChar(s[k])
  {
    seq(|s|, k requires 0 <= k < |s| => UpperChar(s[k]))
  }

  /** `toLowerCase`, for ASCII letters */
  function ToLower(s: string): (r: string)
    ensures |r| == |s| && forall k :: 0 <= k < |s| ==> r[k] == LowerChar(s[k])
  {
    seq(|s|, k requires 0 <= k < |s| => LowerChar(s[k]))
  }

  /** `c.repeat(n)` */
  function Repeat(c: char, n: nat): (r: string)
    ensures |r| == n && forall k :: 0 <= k < n ==> r[k] == c
  {
    seq(n, _ => c)
  }

  /** `s.startsWith(p)` */
  predicate StartsWith(s: string, p: string) {
    |p| <= |s| && s[..|p|] == p
  }

  // ---------------------------------------------------------------------------
  // Decimal rendering of a natural number, as `${n}` does

  function DigitChar(d: nat): char
    requires d < 10
  {
    ('0' as int + d) as char
  }

  function DigitValue(c: char): nat
    requires IsDigit(c)
  {
    c as int - '0' as int
  }

  /** The value of a string of decimal digits. */
  function DecimalValue(s: string): nat
    requires forall k :: 0 <= k < |s| ==> IsDigit(s[k])
  {
    if s == [] then 0 else DecimalValue(s[..|s| - 1]) * 10 + DigitValue(s[|s| - 1])
  }

  /** `${n}` for a natural number n: its decimal digits, without leading zeros. */
  function NatToString(n: nat): (r: string)
    ensures r != [] && forall k :: 0 <= k < |r| ==> IsDigit(r[k])
    ensures |r| > 1 ==> r[0] != '0'
  {
    if n < 10 then [DigitChar(n)] else NatToString(n / 10) + [DigitChar(n % 10)]
  }

  /** Reading the digits back gives the number. */
  lemma {:induction false} NatToStringRoundTrip(n: nat)
    ensures DecimalValue(NatToString(n)) == n
  {
    if n >= 10 {
      var s := NatToString(n);
      assert s[..|s| - 1] == NatToString(n / 10);
      NatToStringRoundTrip(n / 10);
    }
  }

  /** Distinct numbers render differently. */
  lemma NatToStringInjective(a: nat, b: nat)
    requires NatToString(a) == NatToString(b)
    ensures a == b
  {
    NatToStringRoundTrip(a);
    NatToStringRoundTrip(b);
  }
}
