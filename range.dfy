/** Range tokens: `Configuration.RANGE_RE`, the pattern `(.*-)(\d+)--(\d+)(.*)`
    applied with `re.search`, and `Dashboard._develop_range`, which turns
    `web-001--010` into `web-001`, `web-002`, ..., `web-010`. */
module RangeExpansion {
  import opened Wrappers
  import opened Decimal

  /** The separator between the two numbers of a range. */
  const Separator: string := "--"

  /** The four groups of a match: prefix (ending in `-`), first number,
      last number, suffix. */
  datatype RangeMatch = RangeMatch(prefix: string, first: string, last: string, suffix: string)

  /** The text a match covers. */
  function Token(m: RangeMatch): string {
    m.prefix + m.first + Separator + m.last + m.suffix
  }

  predicate NoNewline(s: string) {
    forall i :: 0 <= i < |s| ==> s[i] != '\n'
  }

  /** What any match of the pattern looks like: `.` never matches a newline,
      `\d` is an ASCII digit, and the greedy last `\d+` leaves no digit at the
      start of the suffix. */
  predicate WellFormed(m: RangeMatch) {
    |m.prefix| > 0 && m.prefix[|m.prefix| - 1] == '-' && NoNewline(m.prefix)
    && |m.first| > 0 && AllDigits(m.first)
    && |m.last| > 0 && AllDigits(m.last)
    && NoNewline(m.suffix) && (m.suffix == [] || !IsDigit(m.suffix[0]))
  }

  /** The end of the longest run of digits starting at `i`. */
  function DigitRun(o: string, i: nat): (j: nat)
    requires i <= |o|
    ensures i <= j <= |o|
    ensures forall k :: i <= k < j ==> IsDigit(o[k])
    ensures j == |o| || !IsDigit(o[j])
    decreases |o| - i
  {
    if i < |o| && IsDigit(o[i]) then DigitRun(o, i + 1) else i
  }

  /** The position of the first newline at or after `i`, or `|o|`. */
  function LineEnd(o: string, i: nat): (e: nat)
    requires i <= |o|
    ensures i <= e <= |o|
    ensures forall k :: i <= k < e ==> o[k] != '\n'
    ensures e == |o| || o[e] == '\n'
    decreases |o| - i
  {
    if i < |o| && o[i] != '\n' then LineEnd(o, i + 1) else i
  }

  /** Whether `(\d+)--(\d+)` matches at position `p`. */
  predicate TailAt(o: string, p: nat)
    requires p <= |o|
  {
    var q := DigitRun(o, p);
    q > p && q + 2 <= |o| && o[q] == '-' && o[q + 1] == '-' && DigitRun(o, q + 2) > q + 2
  }

  /** Whether a prefix group `o[s..p]` can end at `p`. */
  predicate PrefixEndsAt(o: string, s: nat, p: nat)
    requires s <= p <= |o|
  {
    s < p && o[p - 1] == '-' && TailAt(o, p)
  }

  /** The groups of the match whose prefix group is `o[s..p]`. */
  function GroupsAt(o: string, s: nat, p: nat): (m: RangeMatch)
    requires s <= |o| && s <= p <= LineEnd(o, s)
    requires PrefixEndsAt(o, s, p)
    ensures WellFormed(m)
  {
    var q := DigitRun(o, p);
    var r := DigitRun(o, q + 2);
    RangeMatch(o[s..p], o[p..q], o[q + 2..r], o[r..LineEnd(o, r)])
  }

  /** The greedy `(.*-)`: the end of the longest prefix group that can start
      at `s` and end at or before `p`. */
  function FindPrefixEnd(o: string, s: nat, p: nat): (r: Option<nat>)
    requires s <= |o| && s <= p <= LineEnd(o, s)
    ensures r.Some? ==> s < r.value <= p && PrefixEndsAt(o, s, r.value)
    decreases p
  {
    if p == s then None
    else if PrefixEndsAt(o, s, p) then Some(p)
    else FindPrefixEnd(o, s, p - 1)
  }

  /** The match anchored at `s`, if any. */
  function MatchAt(o: string, s: nat): (r: Option<RangeMatch>)
    requires s <= |o|
    ensures r.Some? ==> WellFormed(r.value)
  {
    match FindPrefixEnd(o, s, LineEnd(o, s))
    case None => None
    case Some(p) => Some(GroupsAt(o, s, p))
  }

  /** `re.search`: the first start position at which the pattern matches. */
  function Search(o: string, s: nat): (r: Option<RangeMatch>)
    requires s <= |o|
    ensures r.Some? ==> WellFormed(r.value)
    decreases |o| - s
  {
    match MatchAt(o, s)
    case Some(m) => Some(m)
    case None => if s == |o| then None else Search(o, s + 1)
  }

  /** `RANGE_RE.search(o)`. */
  function Match(o: string): (r: Option<RangeMatch>)
    ensures r.Some? ==> WellFormed(r.value)
  {
    Search(o, 0)
  }

  /** `e` is `prefix`, then `n` in decimal zero-padded to `width` digits
      (never truncated), then `suffix`. */
  predicate PaddedElement(e: string, prefix: string, n: nat, width: nat, suffix: string) {
    |prefix| + |suffix| <= |e| && e[..|prefix|] == prefix && e[|e| - |suffix|..] == suffix
    && var digits := e[|prefix|..|e| - |suffix|];
       AllDigits(digits) && Parse(digits) == n && |digits| == Max(width, |Digits(n)|)
  }

  lemma PaddedPieces(prefix: string, n: nat, width: nat, suffix: string)
    ensures PaddedElement(prefix + Pad(n, width) + suffix, prefix, n, width, suffix)
  {
    var e := prefix + Pad(n, width) + suffix;
    assert e[..|prefix|] == prefix;
    assert e[|e| - |suffix|..] == suffix;
    assert e[|prefix|..|e| - |suffix|] == Pad(n, width);
  }

  lemma PaddedAll(r: seq<string>, prefix: string, start: nat, width: nat, suffix: string)
    requires forall k :: 0 <= k < |r| ==> r[k] == prefix + Pad(start + k, width) + suffix
    ensures forall k :: 0 <= k < |r| ==> PaddedElement(r[k], prefix, start + k, width, suffix)
  {
    forall k | 0 <= k < |r| ensures PaddedElement(r[k], prefix, start + k, width, suffix) {
      PaddedPieces(prefix, start + k, width, suffix);
    }
  }

  /** `Dashboard._develop_range` on a matched token: one element per number
      of `range(start, end + 1)`, none when `start > end`, and element `k`
      is the prefix, `start + k` zero-padded to the width of the first
      number, and the suffix. */
  function Expand(m: RangeMatch): (r: seq<string>)
    requires AllDigits(m.first) && AllDigits(m.last)
    ensures |r| == (if Parse(m.first) <= Parse(m.last) then Parse(m.last) - Parse(m.first) + 1 else 0)
    ensures forall k :: 0 <= k < |r| ==> PaddedElement(r[k], m.prefix, Parse(m.first) + k, |m.first|, m.suffix)
  {
    var start := Parse(m.first);
    var end := Parse(m.last);
    var count := if start <= end then end - start + 1 else 0;
    var r := PaddedRange(m.prefix, start, count, |m.first|, m.suffix);
    PaddedAll(r, m.prefix, start, |m.first|, m.suffix);
    r
  }

  /** `[prefix + "%0<width>d" % (start + k) + suffix for k in range(count)]`. */
  function PaddedRange(prefix: string, start: nat, count: nat, width: nat, suffix: string): seq<string> {
    seq(count, k requires 0 <= k < count => prefix + Pad(start + k, width) + suffix)
  }

  /** `Dashboard._develop_range(o)`: a token the pattern does not match
      comes back alone; a matched one expands as `Expand` says. */
  function DevelopRange(o: string): (r: seq<string>)
    ensures Match(o).None? ==> r == [o]
    ensures Match(o).Some? ==>
      var m := Match(o).value;
      var start, end := Parse(m.first), Parse(m.last);
      && |r| == (if start <= end then end - start + 1 else 0)
      && forall k :: 0 <= k < |r| ==> PaddedElement(r[k], m.prefix, start + k, |m.first|, m.suffix)
  {
    match Match(o)
    case None => [o]
    case Some(m) => Expand(m)
  }
}

/** What `_develop_range` guarantees about its result, and how the explicit
    matcher relates to the pattern it implements. */
module RangeExpansionProperties {
  import opened Wrappers
  import opened Decimal
  import opened Ordering
  import opened Text
  import opened RangeExpansion

  lemma SliceSplit(o: string, i: nat, j: nat, k: nat)
    requires i <= j <= k <= |o|
    ensures o[i..k] == o[i..j] + o[j..k]
  {
  }

  /** A run of characters without a newline does not move the end of the line. */
  lemma {:induction false} LineEndSkip(o: string, i: nat, j: nat)
    requires i <= j <= |o|
    requires forall k :: i <= k < j ==> o[k] != '\n'
    ensures LineEnd(o, i) == LineEnd(o, j)
    decreases j - i
  {
    if i < j {
      LineEndSkip(o, i + 1, j);
    }
  }

  /** A match lies on the line where it starts. */
  lemma GroupsLineEnd(o: string, s: nat, p: nat)
    requires s <= |o| && s <= p <= LineEnd(o, s)
    requires PrefixEndsAt(o, s, p)
    ensures LineEnd(o, DigitRun(o, DigitRun(o, p) + 2)) == LineEnd(o, s)
  {
    var q := DigitRun(o, p);
    var r := DigitRun(o, q + 2);
    LineEndSkip(o, s, p);
    LineEndSkip(o, p, q);
    LineEndSkip(o, q, q + 2);
    LineEndSkip(o, q + 2, r);
  }

  /** The groups of a match anchored at `s` spell out the rest of its line. */
  lemma GroupsAtToken(o: string, s: nat, p: nat)
    requires s <= |o| && s <= p <= LineEnd(o, s)
    requires PrefixEndsAt(o, s, p)
    ensures Token(GroupsAt(o, s, p)) == o[s..LineEnd(o, s)]
    ensures |GroupsAt(o, s, p).prefix| == p - s
  {
    var q := DigitRun(o, p);
    var r := DigitRun(o, q + 2);
    GroupsLineEnd(o, s, p);
    assert TailAt(o, p);
    var e := LineEnd(o, r);
    assert GroupsAt(o, s, p) == RangeMatch(o[s..p], o[p..q], o[q + 2..r], o[r..e]);
    SliceToken(o, s, p, q, r, e);
  }

  /** Cutting a line at the four group boundaries and putting the pieces back
      together with the separator gives the line back. */
  lemma SliceToken(o: string, s: nat, p: nat, q: nat, r: nat, e: nat)
    requires s <= p <= q && q + 2 <= r <= e <= |o|
    requires o[q] == '-' && o[q + 1] == '-'
    ensures Token(RangeMatch(o[s..p], o[p..q], o[q + 2..r], o[r..e])) == o[s..e]
  {
    assert o[q..q + 2] == Separator;
    Concat5(o, s, p, q, q + 2, r, e);
  }

  lemma Concat5(o: string, a: nat, b: nat, c: nat, d: nat, f: nat, g: nat)
    requires a <= b <= c <= d <= f <= g <= |o|
    ensures o[a..g] == o[a..b] + o[b..c] + o[c..d] + o[d..f] + o[f..g]
  {
    SliceSplit(o, f, g, g);
    SliceSplit(o, d, f, g);
    SliceSplit(o, c, d, g);
    SliceSplit(o, b, c, g);
    SliceSplit(o, a, b, g);
  }

  /** A failed greedy search means no prefix group ends anywhere in `(s, p]`. */
  lemma {:induction false} FindPrefixEndNone(o: string, s: nat, p: nat)
    requires s <= |o| && s <= p <= LineEnd(o, s)
    requires FindPrefixEnd(o, s, p).None?
    ensures forall q :: s < q <= p ==> !PrefixEndsAt(o, s, q)
    decreases p
  {
    if p > s {
      FindPrefixEndNone(o, s, p - 1);
    }
  }

  /** A successful greedy search picks the longest prefix group. */
  lemma {:induction false} FindPrefixEndLongest(o: string, s: nat, p: nat, q: nat)
    requires s <= |o| && s <= p <= LineEnd(o, s)
    requires s < q <= p && PrefixEndsAt(o, s, q)
    ensures FindPrefixEnd(o, s, p).Some? && FindPrefixEnd(o, s, p).value >= q
    decreases p
  {
    if !PrefixEndsAt(o, s, p) {
      FindPrefixEndLongest(o, s, p - 1, q);
    }
  }

  /** Whatever `re.search` finds is a match of some part of `o`. */
  lemma {:induction false} SearchLocated(o: string, s: nat)
    requires s <= |o|
    requires Search(o, s).Some?
    ensures exists t :: s <= t && OccursAt(o, Token(Search(o, s).value), t)
    decreases |o| - s
  {
    if MatchAt(o, s).Some? {
      MatchAtLocated(o, s);
    } else {
      SearchLocated(o, s + 1);
    }
  }

  /** A match anchored at `s` occurs at `s`. */
  lemma MatchAtLocated(o: string, s: nat)
    requires s <= |o|
    requires MatchAt(o, s).Some?
    ensures OccursAt(o, Token(MatchAt(o, s).value), s)
  {
    var p := FindPrefixEnd(o, s, LineEnd(o, s)).value;
    GroupsAtToken(o, s, p);
  }

  /** A match is well formed and its text occurs in the token. */
  lemma MatchLocated(o: string)
    requires Match(o).Some?
    ensures WellFormed(Match(o).value)
    ensures exists t :: OccursAt(o, Token(Match(o).value), t)
  {
    SearchLocated(o, 0);
  }

  lemma {:induction false} LineEndNoNewline(o: string, i: nat)
    requires i <= |o| && NoNewline(o)
    ensures LineEnd(o, i) == |o|
    decreases |o| - i
  {
    if i < |o| {
      LineEndNoNewline(o, i + 1);
    }
  }

  /** On a single line, no match anchored at 0 means no match anywhere. */
  lemma {:induction false} SearchNoneOnLine(o: string, s: nat)
    requires NoNewline(o) && s <= |o|
    requires forall q :: 0 < q <= |o| ==> !(o[q - 1] == '-' && TailAt(o, q))
    ensures Search(o, s).None?
    decreases |o| - s
  {
    LineEndNoNewline(o, s);
    if s < |o| {
      SearchNoneOnLine(o, s + 1);
    }
  }

  /** On a token without a newline, a match covers the whole token. */
  lemma MatchWholeToken(o: string)
    requires NoNewline(o)
    requires Match(o).Some?
    ensures Token(Match(o).value) == o
  {
    LineEndNoNewline(o, 0);
    match FindPrefixEnd(o, 0, |o|)
    case None =>
      FindPrefixEndNone(o, 0, |o|);
      forall q | 0 < q <= |o| ensures !(o[q - 1] == '-' && TailAt(o, q)) {
        assert !PrefixEndsAt(o, 0, q);
      }
      SearchNoneOnLine(o, 0);
    case Some(p) =>
      GroupsAtToken(o, 0, p);
  }

  lemma {:induction false} DigitRunExact(o: string, i: nat, j: nat)
    requires i <= j <= |o|
    requires forall k :: i <= k < j ==> IsDigit(o[k])
    requires j == |o| || !IsDigit(o[j])
    ensures DigitRun(o, i) == j
    decreases j - i
  {
    if i < j {
      DigitRunExact(o, i + 1, j);
    }
  }

  lemma TokenNoNewline(m: RangeMatch)
    requires WellFormed(m)
    ensures NoNewline(Token(m))
  {
    var o := Token(m);
    var p := |m.prefix|;
    var q := p + |m.first|;
    var r := q + 2 + |m.last|;
    forall k | 0 <= k < |o| ensures o[k] != '\n' {
      if k < p { assert o[k] == m.prefix[k]; }
      else if k < q { assert o[k] == m.first[k - p]; }
      else if k < q + 2 { assert o[k] == '-'; }
      else if k < r { assert o[k] == m.last[k - q - 2]; }
      else { assert o[k] == m.suffix[k - r]; }
    }
  }

  /** The position right after the prefix group of a well-formed token is
      where `(\d+)--(\d+)` matches. */
  lemma TokenPrefixEnds(m: RangeMatch)
    requires WellFormed(m)
    ensures PrefixEndsAt(Token(m), 0, |m.prefix|)
  {
    var o := Token(m);
    var p := |m.prefix|;
    var q := p + |m.first|;
    var r := q + 2 + |m.last|;
    assert forall k :: p <= k < q ==> o[k] == m.first[k - p];
    assert forall k :: q + 2 <= k < r ==> o[k] == m.last[k - q - 2];
    DigitRunExact(o, p, q);
    assert r == |o| || o[r] == m.suffix[0];
    DigitRunExact(o, q + 2, r);
    assert o[p - 1] == m.prefix[p - 1];
  }

  /** Every well-formed range token is matched, the match covers the whole
      token, and the greedy prefix group is at least as long as the one the
      token was written with. */
  lemma MatchComplete(m: RangeMatch)
    requires WellFormed(m)
    ensures Match(Token(m)).Some?
    ensures Token(Match(Token(m)).value) == Token(m)
    ensures |Match(Token(m)).value.prefix| >= |m.prefix|
  {
    var o := Token(m);
    TokenNoNewline(m);
    TokenPrefixEnds(m);
    LineEndNoNewline(o, 0);
    FindPrefixEndLongest(o, 0, |o|, |m.prefix|);
    var p := FindPrefixEnd(o, 0, |o|).value;
    GroupsAtToken(o, 0, p);
    assert Match(o) == Some(GroupsAt(o, 0, p));
  }

  lemma ConcatCancel(p: string, a: string, b: string, s: string)
    requires |a| == |b| && p + a + s == p + b + s
    ensures a == b
  {
    assert a == (p + a + s)[|p|..|p| + |a|];
    assert b == (p + b + s)[|p|..|p| + |b|];
  }

  /** No host is listed twice by a range. */
  lemma DevelopRangeDistinct(o: string)
    ensures forall i, j :: 0 <= i < j < |DevelopRange(o)| ==> DevelopRange(o)[i] != DevelopRange(o)[j]
  {
    if Match(o).Some? {
      ExpandDistinct(Match(o).value);
    }
  }

  lemma ExpandDistinct(m: RangeMatch)
    requires AllDigits(m.first) && AllDigits(m.last)
    ensures forall i, j :: 0 <= i < j < |Expand(m)| ==> Expand(m)[i] != Expand(m)[j]
  {
    var r := Expand(m);
    var start, w := Parse(m.first), |m.first|;
    forall i, j | 0 <= i < j < |r| ensures r[i] != r[j] {
      ExpandAt(m, i);
      ExpandAt(m, j);
      PadDistinct(m, start, w, i, j);
    }
  }

  /** Element `k` of an expansion, as the comprehension builds it. */
  lemma ExpandAt(m: RangeMatch, k: nat)
    requires AllDigits(m.first) && AllDigits(m.last) && k < |Expand(m)|
    ensures Expand(m)[k] == m.prefix + Pad(Parse(m.first) + k, |m.first|) + m.suffix
  {
    var start, end := Parse(m.first), Parse(m.last);
    var count := if start <= end then end - start + 1 else 0;
    assert Expand(m) == PaddedRange(m.prefix, start, count, |m.first|, m.suffix);
    PaddedRangeAt(m.prefix, start, count, |m.first|, m.suffix, k);
  }

  lemma PaddedRangeAt(prefix: string, start: nat, count: nat, width: nat, suffix: string, k: nat)
    requires k < count
    ensures PaddedRange(prefix, start, count, width, suffix)[k] == prefix + Pad(start + k, width) + suffix
  {
  }

  lemma PadDistinct(m: RangeMatch, start: nat, w: nat, i: nat, j: nat)
    requires i < j
    ensures m.prefix + Pad(start + i, w) + m.suffix != m.prefix + Pad(start + j, w) + m.suffix
  {
    var a, b := Pad(start + i, w), Pad(start + j, w);
    if m.prefix + a + m.suffix == m.prefix + b + m.suffix {
      ConcatCancel(m.prefix, a, b, m.suffix);
    }
  }

  function Pow10(n: nat): (p: nat)
    ensures p >= 1
  {
    if n == 0 then 1 else 10 * Pow10(n - 1)
  }

  lemma {:induction false} ParseBound(s: string)
    requires AllDigits(s)
    ensures Parse(s) < Pow10(|s|)
    decreases |s|
  {
    if s != [] {
      ParseBound(s[..|s| - 1]);
    }
  }

  lemma {:induction false} ParseFront(s: string)
    requires AllDigits(s) && s != []
    ensures Parse(s) == DigitValue(s[0]) * Pow10(|s| - 1) + Parse(s[1..])
    decreases |s|
  {
    if |s| > 1 {
      var t := s[..|s| - 1];
      var u := s[1..];
      var d0, dl := DigitValue(s[0]), DigitValue(s[|s| - 1]);
      ParseFront(t);
      assert t[0] == s[0];
      assert t[1..] == u[..|u| - 1];
      assert Parse(u) == Parse(t[1..]) * 10 + dl;
      assert Parse(s) == Parse(t) * 10 + dl;
      ShiftDigit(d0, Pow10(|t| - 1), Parse(t[1..]), dl);
    } else {
      assert s[1..] == [];
      assert s[..0] == [];
    }
  }

  lemma ShiftDigit(d: nat, p: nat, x: nat, e: nat)
    ensures (d * p + x) * 10 + e == d * (10 * p) + (x * 10 + e)
  {
  }

  lemma MulGap(a: nat, b: nat, p: nat)
    requires a > b
    ensures a * p >= b * p + p
  {
    var d := a - b;
    assert a * p == b * p + d * p;
    MulAtLeast(d, p);
  }

  lemma {:induction false} MulAtLeast(d: nat, p: nat)
    requires d >= 1
    ensures d * p >= p
    decreases d
  {
    if d > 1 {
      MulAtLeast(d - 1, p);
      assert d * p == (d - 1) * p + p;
    }
  }

  /** For digit strings of equal width, numeric order is string order. */
  lemma {:induction false} NumericIsLexicographic(x: string, y: string)
    requires AllDigits(x) && AllDigits(y) && |x| == |y|
    requires Parse(x) < Parse(y)
    ensures Less(x, y)
    decreases |x|
  {
    if x != [] {
      ParseFront(x);
      ParseFront(y);
      var p := Pow10(|x| - 1);
      var a, b := DigitValue(x[0]), DigitValue(y[0]);
      if a == b {
        assert x[0] == y[0];
        NumericIsLexicographic(x[1..], y[1..]);
      } else if a > b {
        ParseBound(y[1..]);
        MulGap(a, b, p);
        assert false;
      } else {
        assert x[0] < y[0];
      }
    }
  }

  lemma {:induction false} LessSameWidthExtend(x: string, y: string, s: string)
    requires |x| == |y| && Less(x, y)
    ensures Less(x + s, y + s)
    decreases |x|
  {
    assert x != [] && y != [];
    assert (x + s)[0] == x[0] && (y + s)[0] == y[0];
    if x[0] == y[0] {
      assert (x + s)[1..] == x[1..] + s && (y + s)[1..] == y[1..] + s;
      LessSameWidthExtend(x[1..], y[1..], s);
    }
  }

  lemma {:induction false} LessCommonPrefix(p: string, u: string, v: string)
    requires Less(u, v)
    ensures Less(p + u, p + v)
    decreases |p|
  {
    if p == [] {
      assert p + u == u && p + v == v;
    } else {
      assert (p + u)[0] == p[0] && (p + v)[0] == p[0];
      assert (p + u)[1..] == p[1..] + u && (p + v)[1..] == p[1..] + v;
      LessCommonPrefix(p[1..], u, v);
    }
  }

  lemma {:induction false} DigitsWidth(n: nat, w: nat)
    requires w >= 1 && n < Pow10(w)
    ensures |Digits(n)| <= w
    decreases n
  {
    if n >= 10 {
      assert w > 1;
      assert n / 10 < Pow10(w - 1);
      DigitsWidth(n / 10, w - 1);
    }
  }

  lemma PadStep(prefix: string, suffix: string, start: nat, w: nat, i: nat, j: nat)
    requires w >= 1 && i < j && start + j < Pow10(w)
    ensures Less(prefix + Pad(start + i, w) + suffix, prefix + Pad(start + j, w) + suffix)
  {
    var a, b := Pad(start + i, w), Pad(start + j, w);
    DigitsWidth(start + i, w);
    DigitsWidth(start + j, w);
    NumericIsLexicographic(a, b);
    LessSameWidthExtend(a, b, suffix);
    LessCommonPrefix(prefix, a + suffix, b + suffix);
    assert prefix + a + suffix == prefix + (a + suffix);
    assert prefix + b + suffix == prefix + (b + suffix);
  }

  /** Numbers of one width, padded alike, sort like the numbers. */
  lemma PaddedRangeAscending(prefix: string, start: nat, count: nat, width: nat, suffix: string)
    requires width >= 1 && start + count <= Pow10(width)
    ensures StrictlyIncreasing(PaddedRange(prefix, start, count, width, suffix))
  {
    var r := PaddedRange(prefix, start, count, width, suffix);
    forall i, j | 0 <= i < j < |r| ensures Less(r[i], r[j]) {
      PaddedRangeAt(prefix, start, count, width, suffix, i);
      PaddedRangeAt(prefix, start, count, width, suffix, j);
      PadStep(prefix, suffix, start, width, i, j);
    }
  }

  /** When every number of the range fits the width of the first one, the
      expanded names come in ascending string order. */
  lemma DevelopRangeAscending(o: string)
    requires Match(o).Some?
    requires Parse(Match(o).value.last) < Pow10(|Match(o).value.first|)
    ensures StrictlyIncreasing(DevelopRange(o))
  {
    ExpandAscending(Match(o).value);
  }

  lemma ExpandAscending(m: RangeMatch)
    requires WellFormed(m)
    requires Parse(m.last) < Pow10(|m.first|)
    ensures StrictlyIncreasing(Expand(m))
  {
    var start, end := Parse(m.first), Parse(m.last);
    var count := if start <= end then end - start + 1 else 0;
    assert Expand(m) == PaddedRange(m.prefix, start, count, |m.first|, m.suffix);
    ParseBound(m.first);
    PaddedRangeAscending(m.prefix, start, count, |m.first|, m.suffix);
  }
}
