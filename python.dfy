/** The Python built-ins the event-study code leans on: slicing with its
    clamping and wrap-around, list repetition, and the str methods used to
    parse event lists and lay out error reports. */
module Python {

  datatype Option<+T> = None | Some(value: T)

  datatype Result<+T, +E> = Ok(value: T) | Err(error: E) {
    predicate IsFailure() { Err? }
    function PropagateFailure<U>(): Result<U, E> requires Err? { Err(error) }
    function Extract(): T requires Ok? { value }
  }

  // ---------------------------------------------------------------------
  // Slicing
  // ---------------------------------------------------------------------

  /** Where the slice bound `i` lands in a sequence of length `n`: a negative
      bound counts from the end, and both kinds are clamped to [0, n]. */
  function Bound(i: int, n: nat): (b: nat)
    ensures b <= n
    ensures 0 <= i <= n ==> b == i
    ensures i < 0 && 0 <= n + i ==> b == n + i
    ensures i < 0 && n + i < 0 ==> b == 0
    ensures n < i ==> b == n
  {
    if i < 0 then (if n + i < 0 then 0 else n + i) else if i > n then n else i
  }

  /** `s[i:j]` */
  function Slice<T>(s: seq<T>, i: int, j: int): (r: seq<T>)
    ensures |r| == if Bound(i, |s|) < Bound(j, |s|) then Bound(j, |s|) - Bound(i, |s|) else 0
    ensures forall k :: 0 <= k < |r| ==> r[k] == s[Bound(i, |s|) + k]
  {
    if Bound(i, |s|) < Bound(j, |s|) then s[Bound(i, |s|)..Bound(j, |s|)] else []
  }

  /** `s[:j]` */
  function Take<T>(s: seq<T>, j: int): (r: seq<T>)
    ensures |r| == Bound(j, |s|)
    ensures 0 <= j <= |s| ==> r == s[..j]
    ensures |s| < j ==> r == s
    ensures j < 0 ==> |r| == if |s| + j < 0 then 0 else |s| + j
  {
    s[..Bound(j, |s|)]
  }

  /** `s[i:]`; in particular `s[-k:]` keeps the last k elements when
      1 <= k <= |s|, but the whole of `s` when k == 0. */
  function Drop<T>(s: seq<T>, i: int): (r: seq<T>)
    ensures 0 <= i <= |s| ==> r == s[i..]
    ensures i < 0 && 0 <= |s| + i ==> r == s[|s| + i..]
    ensures i < 0 && |s| + i < 0 ==> r == s
  {
    s[Bound(i, |s|)..]
  }

  /** `s[-1]`, which raises IndexError on an empty list. */
  function Last<T>(s: seq<T>): (r: Option<T>)
    ensures r.Some? <==> s != []
    ensures r.Some? ==> r.value == s[|s| - 1]
  {
    if s == [] then None else Some(s[|s| - 1])
  }

  /** A slice `s[i:j]` has exactly `j - i` elements precisely when the bounds
      coincide, or both are non-negative and inside `s`, or both are negative
      and inside `s` counted from its end. */
  lemma SliceHasLength<T>(s: seq<T>, i: int, j: int)
    ensures |Slice(s, i, j)| == j - i <==>
      (i == j || 0 <= i <= j <= |s| || -|s| <= i <= j < 0)
  {
  }

  /** `[x] * n`: n copies of x, and none when n is zero or negative. */
  function Repeat<T>(x: T, n: int): (r: seq<T>)
    ensures |r| == if n < 0 then 0 else n
    ensures forall k :: 0 <= k < |r| ==> r[k] == x
    decreases if n < 0 then 0 else n
  {
    if n <= 0 then [] else [x] + Repeat(x, n - 1)
  }

  // ---------------------------------------------------------------------
  // Mapping that stops at the first failure
  // ---------------------------------------------------------------------

  /** `[f(x) for x in xs]` where `f` may raise: the results in order, or the
      failure of the first element `f` fails on. */
  function MapResults<A, B, E>(xs: seq<A>, f: A -> Result<B, E>): (r: Result<seq<B>, E>)
    ensures r.Ok? ==> |r.value| == |xs|
  {
    if xs == [] then Ok([])
    else
      var prev :- MapResults(xs[..|xs| - 1], f);
      var y :- f(xs[|xs| - 1]);
      Ok(prev + [y])
  }

  /** The map succeeds exactly when `f` succeeds on every element, holds
      the result of element i at position i, and otherwise fails with the
      failure of some element. */
  lemma {:induction false} MapResultsAll<A, B, E>(xs: seq<A>, f: A -> Result<B, E>)
    ensures MapResults(xs, f).Ok? <==> forall i :: 0 <= i < |xs| ==> f(xs[i]).Ok?
    ensures MapResults(xs, f).Ok? ==> forall i :: 0 <= i < |xs| ==> Ok(MapResults(xs, f).value[i]) == f(xs[i])
    ensures MapResults(xs, f).Err? ==> exists i :: 0 <= i < |xs| && f(xs[i]) == Err(MapResults(xs, f).error)
  {
    if xs != [] {
      var n := |xs| - 1;
      MapResultsAll(xs[..n], f);
      assert forall i :: 0 <= i < n ==> xs[..n][i] == xs[i];
    }
  }

  /** A failed map reports the failure of the first element `f` fails on,
      at position j; `f` succeeds on every element before it. */
  lemma {:induction false} MapResultsFirstFailure<A, B, E>(xs: seq<A>, f: A -> Result<B, E>) returns (j: nat)
    requires MapResults(xs, f).Err?
    ensures j < |xs| && f(xs[j]).Err?
    ensures MapResults(xs, f).error == f(xs[j]).error
    ensures forall i :: 0 <= i < j ==> f(xs[i]).Ok?
  {
    var n := |xs| - 1;
    assert forall i :: 0 <= i < n ==> xs[..n][i] == xs[i];
    if MapResults(xs[..n], f).Err? {
      j := MapResultsFirstFailure(xs[..n], f);
    } else {
      MapResultsAll(xs[..n], f);
      j := n;
    }
  }

  /** Once a prefix fails, the whole map fails the same way. */
  lemma {:induction false} MapResultsStops<A, B, E>(xs: seq<A>, k: nat, f: A -> Result<B, E>)
    requires k <= |xs|
    requires MapResults(xs[..k], f).Err?
    ensures MapResults(xs, f) == MapResults(xs[..k], f)
    decreases |xs|
  {
    if k < |xs| {
      var n := |xs| - 1;
      assert xs[..n][..k] == xs[..k];
      MapResultsStops(xs[..n], k, f);
    } else {
      assert xs[..k] == xs;
    }
  }

  /** A successful map extended by an element `f` succeeds on succeeds with
      that result appended. */
  /** One more step of the map: stop at a failure, or append the value. */
  lemma MapResultsStep<A, B, E>(xs: seq<A>, k: nat, f: A -> Result<B, E>)
    requires k < |xs| && MapResults(xs[..k], f).Ok?
    ensures f(xs[k]).Err? ==> MapResults(xs, f) == Err(f(xs[k]).error)
    ensures f(xs[k]).Ok? ==> MapResults(xs[..k + 1], f) == Ok(MapResults(xs[..k], f).value + [f(xs[k]).value])
  {
    var p := xs[..k + 1];
    assert p[..k] == xs[..k] && p[k] == xs[k];
    if f(xs[k]).Err? {
      assert MapResults(p, f) == Err(f(xs[k]).error);
      MapResultsStops(xs, k + 1, f);
    }
  }

  // ---------------------------------------------------------------------
  // Text
  // ---------------------------------------------------------------------

  /** The characters `str.isspace` accepts: those str.strip() removes. */
  predicate IsSpace(c: char)
  {
    if c <= ' ' then
      '\t' <= c <= '\r' || '\U{001C}' <= c
    else
      c == '\U{0085}' || c == '\U{00A0}' || c == '\U{1680}' || ('\U{2000}' <= c <= '\U{200A}')
      || c == '\U{2028}' || c == '\U{2029}' || c == '\U{202F}' || c == '\U{205F}' || c == '\U{3000}'
  }

  /** Number of whitespace characters `s` starts with. */
  function LeadingSpaces(s: string): (n: nat)
    ensures n <= |s|
    ensures forall k :: 0 <= k < n ==> IsSpace(s[k])
    ensures n < |s| ==> !IsSpace(s[n])
  {
    if s != [] && IsSpace(s[0]) then
      var n := 1 + LeadingSpaces(s[1..]);
      assert forall k :: 1 <= k < n ==> s[k] == s[1..][k - 1];
      n
    else 0
  }

  /** Number of whitespace characters `s` ends with. */
  function TrailingSpaces(s: string): (n: nat)
    ensures n <= |s|
    ensures forall k :: |s| - n <= k < |s| ==> IsSpace(s[k])
    ensures n < |s| ==> !IsSpace(s[|s| - n - 1])
  {
    if s != [] && IsSpace(s[|s| - 1]) then
      var n := 1 + TrailingSpaces(s[..|s| - 1]);
      assert forall k :: |s| - n <= k < |s| - 1 ==> s[k] == s[..|s| - 1][k];
      n
    else 0
  }

  /** `s.strip()`: the infix of `s` left once leading and trailing
      whitespace is removed; everything removed is whitespace. */
  function Strip(s: string): (r: string)
    ensures LeadingSpaces(s) + |r| <= |s|
    ensures r == s[LeadingSpaces(s)..LeadingSpaces(s) + |r|]
    ensures r == [] || (!IsSpace(r[0]) && !IsSpace(r[|r| - 1]))
    ensures forall k :: 0 <= k < LeadingSpaces(s) ==> IsSpace(s[k])
    ensures forall k :: LeadingSpaces(s) + |r| <= k < |s| ==> IsSpace(s[k])
  {
    var n := LeadingSpaces(s);
    var m := TrailingSpaces(s[n..]);
    SuffixEnds(s, n, m, IsSpace);
    s[n..|s| - m]
  }

  /** What holds of the last `m` entries of `s[n..]`, and fails just before
      them, holds and fails at the same places of `s`. */
  lemma SuffixEnds<T>(s: seq<T>, n: nat, m: nat, p: T -> bool)
    requires n <= |s| && m <= |s[n..]|
    requires forall j :: |s[n..]| - m <= j < |s[n..]| ==> p(s[n..][j])
    requires m < |s[n..]| ==> !p(s[n..][|s[n..]| - m - 1])
    ensures forall k :: |s| - m <= k < |s| ==> p(s[k])
    ensures m < |s| - n ==> !p(s[|s| - m - 1])
  {
    var t := s[n..];
    forall k | |s| - m <= k < |s| ensures p(s[k]) {
      assert s[k] == t[k - n];
    }
    if m < |s| - n {
      assert s[|s| - m - 1] == t[|t| - m - 1];
    }
  }

  /** Position of the last `c` in `s`. */
  function LastIndexOf(s: string, c: char): (i: nat)
    requires c in s
    ensures i < |s| && s[i] == c && c !in s[i + 1..]
  {
    if s[|s| - 1] == c then |s| - 1 else LastIndexOf(s[..|s| - 1], c)
  }

  /** `s.split(sep)` for a one-character separator: every field between two
      separators, empty fields included, and at least one field; the last
      field follows the last separator. */
  function Split(s: string, sep: char): (parts: seq<string>)
    ensures |parts| >= 1
    ensures forall k :: 0 <= k < |parts| ==> sep !in parts[k]
    decreases |s|
  {
    if sep !in s then [s]
    else
      var i := LastIndexOf(s, sep);
      Split(s[..i], sep) + [s[i + 1..]]
  }

  /** `sep.join(parts)` */
  function Join(parts: seq<string>, sep: string): (r: string)
  {
    if parts == [] then ""
    else if |parts| == 1 then parts[0]
    else Join(parts[..|parts| - 1], sep) + sep + parts[|parts| - 1]
  }

  /** Splitting loses nothing: joining the fields back with the separator
      gives the text again. */
  lemma {:induction false} JoinSplit(s: string, sep: char)
    ensures Join(Split(s, sep), [sep]) == s
    decreases |s|
  {
    if sep in s {
      var i := LastIndexOf(s, sep);
      var front := Split(s[..i], sep);
      JoinSplit(s[..i], sep);
      var parts := front + [s[i + 1..]];
      assert parts[..|parts| - 1] == front;
      assert s == s[..i] + [sep] + s[i + 1..];
    }
  }

  /** A separator appended to a text adds one empty field at the end. */
  lemma SplitAppended(s: string, sep: char)
    ensures Split(s + [sep], sep) == Split(s, sep) + [""]
  {
    var t := s + [sep];
    assert t[..|s|] == s;
    assert t[|s| + 1..] == [];
  }

  /** `s.ljust(width)`: `s` padded with spaces on the right to `width`. */
  function LJust(s: string, width: int): (r: string)
    ensures |r| == if |s| < width then width else |s|
    ensures r[..|s|] == s
    ensures forall k :: |s| <= k < |r| ==> r[k] == ' '
  {
    s + Repeat(' ', width - |s|)
  }

  function Digit(d: nat): (c: char)
    requires d < 10
  {
    ['0', '1', '2', '3', '4', '5', '6', '7', '8', '9'][d]
  }

  function DigitValue(c: char): nat
  {
    if '0' <= c <= '9' then (c as int - '0' as int) as nat else 0
  }

  /** Decimal digits of `n`, most significant first, without leading zeros. */
  function NatText(n: nat): (s: string)
    ensures s != []
    ensures forall k :: 0 <= k < |s| ==> '0' <= s[k] <= '9'
    ensures |s| > 1 ==> s[0] != '0'
  {
    if n < 10 then [Digit(n)] else NatText(n / 10) + [Digit(n % 10)]
  }

  /** The number a string of decimal digits denotes. */
  function DigitsValue(s: string): nat
  {
    if s == [] then 0 else 10 * DigitsValue(s[..|s| - 1]) + DigitValue(s[|s| - 1])
  }

  /** Reading back the digits `NatText` writes gives the number again. */
  lemma {:induction false} NatTextValue(n: nat)
    ensures DigitsValue(NatText(n)) == n
  {
    if n >= 10 {
      NatTextValue(n / 10);
      var s := NatText(n);
      assert s[..|s| - 1] == NatText(n / 10);
    }
  }

  /** `str(i)` for an integer. */
  function IntText(i: int): (s: string)
    ensures i < 0 <==> (s != [] && s[0] == '-')
    ensures s == (if i < 0 then "-" else "") + NatText(if i < 0 then -i else i)
  {
    if i < 0 then "-" + NatText(-i) else NatText(i)
  }
}
