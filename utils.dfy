/** The two helpers of eventstudy/utils.py that the core uses: locating an
    event date among the dates of a return series, probing forward over
    non-trading days, and marking a value with significance asterisks. */
module Utils {
  import opened Python

  /** `np.where(data == day)[0][0]`: the first row holding `day`, if any. */
  function FirstIndex(data: seq<int>, day: int): (r: Option<nat>)
    ensures r.None? <==> day !in data
    ensures r.Some? ==> r.value < |data| && data[r.value] == day && day !in data[..r.value]
  {
    if data == [] then None
    else if data[0] == day then Some(0)
    else
      match FirstIndex(data[1..], day)
      case None => None
      case Some(i) =>
        assert data[..i + 1] == [data[0]] + data[1..][..i];
        Some(i + 1)
  }

  /** The rows `get_index_of_date(data, day, n)` finds: the probes are day,
      day + 1, ..., day + n, in that order, and the first probe that occurs
      in the data gives the answer, at its first row. No probe at all is made
      when n is negative. */
  function Locate(data: seq<int>, day: int, n: int): (r: Option<nat>)
    ensures r.None? <==> forall p :: day <= p <= day + n ==> p !in data
    ensures r.Some? ==>
      && r.value < |data|
      && day <= data[r.value] <= day + n
      && (forall p :: day <= p < data[r.value] ==> p !in data)
      && data[r.value] !in data[..r.value]
    decreases if n < 0 then 0 else n + 1
  {
    if n < 0 then None
    else
      match FirstIndex(data, day)
      case Some(i) => Some(i)
      case None =>
        var r := Locate(data, day + 1, n - 1);
        r
  }

  /** `get_index_of_date(data, date, n)`: tries `date`, then moves the date
      forward one day at a time, at most n times, and returns the first row
      holding the date tried; None when no try matches. */
  method GetIndexOfDate(data: seq<int>, date: int, n: int) returns (index: Option<nat>)
    ensures index == Locate(data, date, n)
  {
    var probe := date;
    var i := 0;
    while i < n + 1
      invariant 0 <= i
      invariant i > 0 ==> i <= n + 1
      invariant probe == date + i
      invariant Locate(data, date, n) == Locate(data, probe, n - i)
    {
      var found := FirstIndex(data, probe);
      if found.Some? {
        return found;
      }
      probe := probe + 1;
      i := i + 1;
    }
    return None;
  }

  /** With n == 0 only the date itself is accepted. */
  lemma ExactMatchOnly(data: seq<int>, day: int)
    ensures Locate(data, day, 0) == FirstIndex(data, day)
  {
  }

  /** Dates D and D + 2 with D + 1 missing (a non-trading day): probing from
      D + 1 finds D + 2 at row 1 as soon as one extra day is allowed, and
      nothing when none is. */
  lemma GapIsBridged(d: int, n: int)
    requires n >= 1
    ensures Locate([d, d + 2], d + 1, n) == Some(1)
    ensures Locate([d, d + 2], d + 1, 0) == None
  {
    assert Locate([d, d + 2], d + 2, n - 1) == Some(1);
  }

  /** An earlier probe date wins even when a later probe date sits on an
      earlier row. */
  lemma EarlierProbeWins(d: int)
    ensures Locate([d + 1, d], d, 1) == Some(1)
  {
  }

  /** Number of asterisks `add_asterisks` appends for a p-value: three
      below 0.01, two below 0.05, one below 0.1, none otherwise. */
  function Stars(pvalue: real): (n: nat)
    ensures n <= 3
    ensures n == 3 <==> pvalue < 0.01
    ensures n >= 2 <==> pvalue < 0.05
    ensures n >= 1 <==> pvalue < 0.1
  {
    if pvalue < 0.01 then 3 else if pvalue < 0.05 then 2 else if pvalue < 0.1 then 1 else 0
  }

  /** A smaller p-value never earns fewer asterisks. */
  lemma StarsAntitone(p: real, q: real)
    requires p <= q
    ensures Stars(p) >= Stars(q)
  {
  }

  /** `add_asterisks(pvalue, value)`: the text of `value` (of the p-value
      itself when no value is given), then a space and the asterisks when
      there are any. Both texts are given as `str()` prints them. */
  function AddAsterisks(pvalue: real, pvalueText: string, value: Option<string>): (r: string)
    ensures var shown := if value.None? then pvalueText else value.value;
      && shown <= r
      && |r| == |shown| + (if Stars(pvalue) == 0 then 0 else Stars(pvalue) + 1)
      && (Stars(pvalue) > 0 ==> r[|shown|] == ' ')
      && (forall k :: |shown| < k < |r| ==> r[k] == '*')
  {
    var shown := if value.None? then pvalueText else value.value;
    if pvalue < 0.01 then shown + " ***"
    else if pvalue < 0.05 then shown + " **"
    else if pvalue < 0.1 then shown + " *"
    else shown
  }
}
