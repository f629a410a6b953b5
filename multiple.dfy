/** The cross-sectional event study of eventstudy/multiple.py (`Multiple`),
    which eventstudy/eventStudyBatch.py repeats line for line as
    `EventStudyBatch`: the aggregation of a sample of single-event studies
    (average abnormal returns, their variances and cumulative sums, the
    distribution of the CARs), the batch runner that sorts events into the
    sample or the error list, the parser of comma-separated event lists and
    the error report. */
module Multiple {
  import opened Python
  import opened Numerics
  import opened Exceptions
  import Single

  type Event = Single.SingleEvent

  // ---------------------------------------------------------------------
  // Event parameters as keyword dictionaries
  // ---------------------------------------------------------------------

  /** A parameter value: text, or a date once `from_text` has parsed it. */
  datatype Value = Text(text: string) | When(date: Date)

  /** `str(value)` */
  function ValueStr(v: Value): string
  {
    match v
    case Text(s) => s
    case When(d) => d.text
  }

  /** A Python dict of keyword parameters, in insertion order. */
  type Record = seq<(string, Value)>

  /** Where `key` sits in the dict. */
  function KeyIndex(r: Record, key: string): (i: Option<nat>)
    ensures i.None? <==> forall j :: 0 <= j < |r| ==> r[j].0 != key
    ensures i.Some? ==> i.value < |r| && r[i.value].0 == key
    ensures i.Some? ==> forall j :: 0 <= j < i.value ==> r[j].0 != key
  {
    if r == [] then None
    else if r[0].0 == key then Some(0)
    else
      var rest := KeyIndex(r[1..], key);
      if rest.None? then None else Some(rest.value + 1)
  }

  /** `d.get(key)` */
  function Get(r: Record, key: string): Option<Value>
  {
    var i := KeyIndex(r, key);
    if i.None? then None else Some(r[i.value].1)
  }

  /** `d[key] = v`: an existing key keeps its place, a new one goes last. */
  function Put(r: Record, key: string, v: Value): (r': Record)
  {
    var i := KeyIndex(r, key);
    if i.None? then r + [(key, v)] else r[i.value := (key, v)]
  }

  /** `d.pop(key)`: the value and the dict without the key, or KeyError. */
  function Pop(r: Record, key: string): (p: Result<(Value, Record), Failure>)
    ensures p.Err? <==> Get(r, key).None?
    ensures p.Err? ==> p.error == Builtin("KeyError")
    ensures p.Ok? ==> p.value.0 == Get(r, key).value && |p.value.1| == |r| - 1
  {
    var i := KeyIndex(r, key);
    if i.None? then Err(Builtin("KeyError"))
    else Ok((r[i.value].1, r[..i.value] + r[i.value + 1..]))
  }

  /** The first entry under `key` is at `x`. */
  lemma KeyIndexAt(r: Record, key: string, x: nat)
    requires x < |r| && r[x].0 == key
    requires forall j :: 0 <= j < x ==> r[j].0 != key
    ensures KeyIndex(r, key) == Some(x)
  {
    var i := KeyIndex(r, key);
    assert i.Some?;
    assert !(i.value < x);
  }

  /** Reading a key back after writing it gives the written value, and
      every other key keeps its value. */
  lemma PutGet(r: Record, key: string, v: Value, other: string)
    ensures Get(Put(r, key, v), key) == Some(v)
    ensures other != key ==> Get(Put(r, key, v), other) == Get(r, other)
  {
    var r' := Put(r, key, v);
    var i := KeyIndex(r, key);
    if i.None? {
      KeyIndexAt(r', key, |r|);
    } else {
      KeyIndexAt(r', key, i.value);
    }
    if other != key {
      var o := KeyIndex(r, other);
      assert forall j :: 0 <= j < |r| ==> r'[j].0 == r[j].0;
      if o.Some? {
        KeyIndexAt(r', other, o.value);
        assert r'[o.value] == r[o.value];
      } else {
        assert forall j :: 0 <= j < |r'| ==> r'[j].0 != other;
      }
    }
  }

  /** Popping one key leaves every other key's value as it was. */
  lemma PopGet(r: Record, key: string, other: string)
    requires Get(r, key).Some? && other != key
    ensures Get(Pop(r, key).value.1, other) == Get(r, other)
  {
    var i := KeyIndex(r, key).value;
    var rest := Pop(r, key).value.1;
    assert rest == r[..i] + r[i + 1..];
    var o := KeyIndex(r, other);
    if o.Some? {
      if o.value < i {
        KeyIndexAt(rest, other, o.value);
      } else {
        assert o.value > i;
        KeyIndexAt(rest, other, o.value - 1);
        assert rest[o.value - 1] == r[o.value];
      }
    } else {
      forall j | 0 <= j < |rest| ensures rest[j].0 != other {
        if j < i {
          assert rest[j] == r[j];
        } else {
          assert rest[j] == r[j + 1];
        }
      }
      assert KeyIndex(rest, other).None?;
    }
  }

  /** The dict without the first entry under `key`. */
  function Remove(r: Record, key: string): Record
  {
    if r == [] then []
    else if r[0].0 == key then r[1..]
    else [r[0]] + Remove(r[1..], key)
  }

  /** What `d.pop(key)` leaves behind is the dict without that key. */
  lemma {:induction false} PopRemove(r: Record, key: string)
    requires Get(r, key).Some?
    ensures Pop(r, key).value.1 == Remove(r, key)
  {
    if r[0].0 != key {
      var i := KeyIndex(r, key).value;
      KeyIndexAt(r[1..], key, i - 1);
      PopRemove(r[1..], key);
      assert r[..i] + r[i + 1..] == [r[0]] + (r[1..][..i - 1] + r[1..][i..]);
    }
  }

  /** Popping a key that was just added returns its value and the dict as
      it was before. */
  lemma PopPut(r: Record, key: string, v: Value)
    requires Get(r, key).None?
    ensures Pop(Put(r, key, v), key) == Ok((v, r))
  {
    var r' := Put(r, key, v);
    KeyIndexAt(r', key, |r|);
    assert r'[..|r|] + r'[|r| + 1..] == r;
  }

  // ---------------------------------------------------------------------
  // Aggregation
  // ---------------------------------------------------------------------

  /** The mean, variance, minimum and maximum parts of `CAR_dist`, one entry
      per event day. */
  datatype Dist = Dist(mean: seq<real>, variance: seq<real>, min: seq<real>, max: seq<real>)

  /** The attributes of a `Multiple` instance. The t-statistics, p-values,
      kurtosis and quantiles are not part of the model. */
  datatype Batch = Batch(
    errors: Option<seq<Record>>,
    eventWindow: Single.Window,
    eventWindowSize: int,
    aar: seq<real>,
    varAAR: seq<real>,
    caar: seq<real>,
    varCAAR: seq<real>,
    df: int,
    carDist: Dist,
    car: seq<real>)

  function ARs(sample: seq<Event>): (rows: seq<seq<real>>)
    ensures |rows| == |sample|
    ensures forall e :: 0 <= e < |sample| ==> rows[e] == sample[e].ar
  {
    seq(|sample|, e requires 0 <= e < |sample| => sample[e].ar)
  }

  function VarARs(sample: seq<Event>): (rows: seq<seq<real>>)
    ensures |rows| == |sample|
    ensures forall e :: 0 <= e < |sample| ==> rows[e] == sample[e].varAR
  {
    seq(|sample|, e requires 0 <= e < |sample| => sample[e].varAR)
  }

  function CARs(sample: seq<Event>): (rows: seq<seq<real>>)
    ensures |rows| == |sample|
    ensures forall e :: 0 <= e < |sample| ==> rows[e] == sample[e].car
  {
    seq(|sample|, e requires 0 <= e < |sample| => sample[e].car)
  }

  /** `np.sum([event.df for event in sample])` */
  function TotalDF(sample: seq<Event>): int
  {
    if sample == [] then 0 else TotalDF(sample[..|sample| - 1]) + sample[|sample| - 1].df
  }

  /** numpy can stack the rows into a matrix: they are all as long as the
      first. */
  predicate Rectangular(rows: seq<seq<real>>)
  {
    forall e :: 0 <= e < |rows| ==> |rows[e]| == |rows[0]|
  }

  /** `n` when it is positive, else 0: the length of `range(1, n + 1)`. */
  function Count(n: int): nat
  {
    if n < 0 then 0 else n
  }

  /** `var_CAAR = [np.sum(var_AAR[:i]) for i in range(1, ews + 1)]` */
  function VarCAAR(varAAR: seq<real>, ews: int): (r: seq<real>)
    ensures |r| == Count(ews)
    ensures forall i :: 0 <= i < |r| ==> r[i] == Sum(Take(varAAR, i + 1))
  {
    seq(Count(ews), i requires 0 <= i < Count(ews) => Sum(Take(varAAR, i + 1)))
  }

  /** Mean, variance, minimum and maximum of every column of a matrix. */
  function ColumnStats(rows: seq<seq<real>>, m: nat): (d: Dist)
    requires |rows| > 0 && Uniform(rows, m)
    ensures |d.mean| == m && |d.variance| == m && |d.min| == m && |d.max| == m
    ensures forall t :: 0 <= t < m ==> d.mean[t] == Mean(Column(rows, t))
    ensures forall t :: 0 <= t < m ==> d.variance[t] == PopVariance(Column(rows, t))
    ensures forall t :: 0 <= t < m ==> d.min[t] == MinOf(Column(rows, t))
    ensures forall t :: 0 <= t < m ==> d.max[t] == MaxOf(Column(rows, t))
  {
    Dist(seq(m, t requires 0 <= t < m => Mean(Column(rows, t))),
         seq(m, t requires 0 <= t < m => PopVariance(Column(rows, t))),
         seq(m, t requires 0 <= t < m => MinOf(Column(rows, t))),
         seq(m, t requires 0 <= t < m => MaxOf(Column(rows, t))))
  }

  /** `[event.CAR[-1] for event in sample]` */
  function Terminal(rows: seq<seq<real>>): (r: seq<real>)
    requires forall e :: 0 <= e < |rows| ==> rows[e] != []
    ensures |r| == |rows|
    ensures forall e :: 0 <= e < |rows| ==> r[e] == rows[e][|rows[e]| - 1]
  {
    seq(|rows|, e requires 0 <= e < |rows| => rows[e][|rows[e]| - 1])
  }

  /** `1 / N * np.sum(rows, axis=0)`: entry t is the mean of column t. */
  function ColumnMeans(rows: seq<seq<real>>, m: nat): (r: seq<real>)
    requires |rows| > 0 && Uniform(rows, m)
    ensures |r| == m
    ensures forall t :: 0 <= t < m ==> r[t] == Mean(Column(rows, t))
  {
    Scale(1.0 / |rows| as real, VecSum(rows, m))
  }

  /** `1 / N**2 * np.sum(rows, axis=0)`: entry t is the sum of column t
      over N squared, the variance of a mean of N independent entries. */
  function PooledVariance(rows: seq<seq<real>>, m: nat): (r: seq<real>)
    requires |rows| > 0 && Uniform(rows, m)
    ensures |r| == m
    ensures forall t :: 0 <= t < m ==> r[t] == Sum(Column(rows, t)) / (|rows| * |rows|) as real
  {
    Scale(1.0 / (|rows| * |rows|) as real, VecSum(rows, m))
  }

  /** The shapes numpy accepts when aggregating a non-empty sample: the ARs,
      their variances and the CARs each stack into a matrix, the CAAR and
      var_CAAR broadcast against each other in the t-statistic, and every
      event has a last CAR. */
  predicate Aggregable(sample: seq<Event>)
    requires sample != []
  {
    && Rectangular(ARs(sample))
    && Rectangular(VarARs(sample))
    && Single.Broadcastable(|sample[0].ar|, Count(sample[0].eventWindowSize))
    && Rectangular(CARs(sample))
    && forall e :: 0 <= e < |sample| ==> sample[e].car != []
  }

  /** The attributes `__init__` and `__compute` set for a sample numpy can
      aggregate: the window of the first event, AAR, var_AAR, their running
      sums CAAR and var_CAAR, the total df, the CAR distribution and the
      terminal CARs. */
  function Aggregate(sample: seq<Event>, errors: Option<seq<Record>>): Batch
    requires sample != [] && Aggregable(sample)
  {
    var aar := ColumnMeans(ARs(sample), |sample[0].ar|);
    var varAAR := PooledVariance(VarARs(sample), |sample[0].varAR|);
    Batch(errors, sample[0].eventWindow, sample[0].eventWindowSize, aar, varAAR, CumSum(aar),
          VarCAAR(varAAR, sample[0].eventWindowSize), TotalDF(sample),
          ColumnStats(CARs(sample), |sample[0].car|), Terminal(CARs(sample)))
  }

  /** `Multiple(sample, errors)`: the window comes from the first event, so
      an empty sample raises IndexError; a sample numpy cannot stack or
      broadcast raises ValueError, and an event with an empty CAR raises
      IndexError once the rest is computed. */
  function NewBatch(sample: seq<Event>, errors: Option<seq<Record>>): (r: Result<Batch, Failure>)
    ensures sample == [] ==> r == Err(Builtin("IndexError"))
    ensures sample != [] ==> (r.Ok? <==> Aggregable(sample))
    ensures sample != [] && r.Err? ==>
      r.error == (if && Rectangular(ARs(sample)) && Rectangular(VarARs(sample))
                     && Single.Broadcastable(|sample[0].ar|, Count(sample[0].eventWindowSize))
                     && Rectangular(CARs(sample))
                  then Builtin("IndexError") else Builtin("ValueError"))
    ensures r.Ok? ==> r.value == Aggregate(sample, errors)
  {
    if sample == [] then Err(Builtin("IndexError"))
    else if !Rectangular(ARs(sample)) || !Rectangular(VarARs(sample)) then Err(Builtin("ValueError"))
    else if !Single.Broadcastable(|sample[0].ar|, Count(sample[0].eventWindowSize)) then Err(Builtin("ValueError"))
    else if !Rectangular(CARs(sample)) then Err(Builtin("ValueError"))
    else if exists e :: 0 <= e < |sample| && sample[e].car == [] then Err(Builtin("IndexError"))
    else Ok(Aggregate(sample, errors))
  }

  /** A sample of n copies of one event averages back to that event: its
      AR and CAR, its variances divided by n, n times its degrees of
      freedom and n copies of its terminal CAR. */
  lemma IdenticalEvents(sample: seq<Event>, ev: Event, errors: Option<seq<Record>>)
    requires sample != [] && forall e :: 0 <= e < |sample| ==> sample[e] == ev
    requires ev.car != [] && Single.Broadcastable(|ev.ar|, Count(ev.eventWindowSize))
    ensures NewBatch(sample, errors).Ok?
    ensures NewBatch(sample, errors).value.aar == ev.ar
    ensures NewBatch(sample, errors).value.caar == CumSum(ev.ar)
    ensures |NewBatch(sample, errors).value.varAAR| == |ev.varAR|
    ensures forall t :: 0 <= t < |ev.varAR| ==>
      NewBatch(sample, errors).value.varAAR[t] == ev.varAR[t] / |sample| as real
    ensures NewBatch(sample, errors).value.df == |sample| * ev.df
    ensures NewBatch(sample, errors).value.car == Repeat(ev.car[|ev.car| - 1], |sample|)
  {
    IdenticalRows(sample, ev);
    var b := Aggregate(sample, errors);
    assert NewBatch(sample, errors) == Ok(b);
    ConstantRows(ARs(sample), ev.ar);
    ConstantRowsPooled(VarARs(sample), ev.varAR);
    TotalDFConstant(sample, ev);
    TerminalOfEqualRows(CARs(sample), ev.car);
  }

  /** The AR, variance and CAR rows of n copies of one event are n copies of
      its own, and numpy can aggregate them. */
  lemma IdenticalRows(sample: seq<Event>, ev: Event)
    requires sample != [] && forall e :: 0 <= e < |sample| ==> sample[e] == ev
    requires ev.car != [] && Single.Broadcastable(|ev.ar|, Count(ev.eventWindowSize))
    ensures forall e :: 0 <= e < |sample| ==> ARs(sample)[e] == ev.ar
    ensures forall e :: 0 <= e < |sample| ==> VarARs(sample)[e] == ev.varAR
    ensures forall e :: 0 <= e < |sample| ==> CARs(sample)[e] == ev.car
    ensures Aggregable(sample)
  {
  }

  lemma TerminalOfEqualRows(rows: seq<seq<real>>, v: seq<real>)
    requires v != [] && forall e :: 0 <= e < |rows| ==> rows[e] == v
    ensures Terminal(rows) == Repeat(v[|v| - 1], |rows|)
  {
    var t, w := Terminal(rows), Repeat(v[|v| - 1], |rows|);
    forall e | 0 <= e < |rows| ensures t[e] == w[e] {
    }
  }

  /** Equal rows average to the row itself... */
  lemma ConstantRows(rows: seq<seq<real>>, v: seq<real>)
    requires rows != [] && forall e :: 0 <= e < |rows| ==> rows[e] == v
    ensures ColumnMeans(rows, |v|) == v
  {
    var n := |rows|;
    var r := ColumnMeans(rows, |v|);
    forall t | 0 <= t < |v| ensures r[t] == v[t] {
      var c := Column(rows, t);
      assert forall e :: 0 <= e < n ==> c[e] == v[t];
      SumConstant(c, v[t]);
    }
  }

  /** ...and pool to the row over N. */
  lemma ConstantRowsPooled(rows: seq<seq<real>>, v: seq<real>)
    requires rows != [] && forall e :: 0 <= e < |rows| ==> rows[e] == v
    ensures forall t :: 0 <= t < |v| ==> PooledVariance(rows, |v|)[t] == v[t] / |rows| as real
  {
    forall t | 0 <= t < |v| ensures PooledVariance(rows, |v|)[t] == v[t] / |rows| as real {
      ConstantColumn(rows, v, t);
      Pool(Sum(Column(rows, t)), |rows|, v[t]);
    }
  }

  lemma ConstantColumn(rows: seq<seq<real>>, v: seq<real>, t: nat)
    requires rows != [] && forall e :: 0 <= e < |rows| ==> rows[e] == v
    requires t < |v|
    ensures Sum(Column(rows, t)) == |rows| as real * v[t]
  {
    var c := Column(rows, t);
    assert forall e :: 0 <= e < |rows| ==> c[e] == v[t];
    SumConstant(c, v[t]);
  }

  lemma Pool(s: real, n: nat, x: real)
    requires n > 0 && s == n as real * x
    ensures s / (n * n) as real == x / n as real
  {
    assert (n * n) as real == n as real * n as real;
  }

  lemma {:induction false} TotalDFConstant(sample: seq<Event>, ev: Event)
    requires forall e :: 0 <= e < |sample| ==> sample[e] == ev
    ensures TotalDF(sample) == |sample| * ev.df
  {
    if sample != [] {
      TotalDFConstant(sample[..|sample| - 1], ev);
    }
  }

  /** With non-negative daily variances, var_CAAR is non-negative and never
      decreases along the window. */
  lemma VarCAARNonDecreasing(sample: seq<Event>, errors: Option<seq<Record>>)
    requires sample != [] && Aggregable(sample)
    requires forall e, t :: 0 <= e < |sample| && 0 <= t < |sample[e].varAR| ==> sample[e].varAR[t] >= 0.0
    ensures var v := Aggregate(sample, errors).varCAAR;
      forall i, j :: 0 <= i <= j < |v| ==> 0.0 <= v[i] <= v[j]
  {
    var rows := VarARs(sample);
    var varAAR := PooledVariance(rows, |sample[0].varAR|);
    assert Aggregate(sample, errors).varCAAR == VarCAAR(varAAR, sample[0].eventWindowSize);
    PooledNonNegative(rows, |sample[0].varAR|);
    RunningSumsGrow(varAAR, sample[0].eventWindowSize);
  }

  /** Pooling non-negative variances gives non-negative variances. */
  lemma PooledNonNegative(rows: seq<seq<real>>, m: nat)
    requires |rows| > 0 && Uniform(rows, m)
    requires forall e, t :: 0 <= e < |rows| && 0 <= t < |rows[e]| ==> rows[e][t] >= 0.0
    ensures forall t :: 0 <= t < m ==> PooledVariance(rows, m)[t] >= 0.0
  {
    var n := |rows|;
    forall t | 0 <= t < m ensures PooledVariance(rows, m)[t] >= 0.0 {
      SumNonNegative(Column(rows, t));
      assert (n * n) as real > 0.0;
    }
  }

  /** The running sums of non-negative variances are non-negative and do
      not decrease. */
  lemma RunningSumsGrow(varAAR: seq<real>, ews: int)
    requires forall t :: 0 <= t < |varAAR| ==> varAAR[t] >= 0.0
    ensures var v := VarCAAR(varAAR, ews);
      forall i, j :: 0 <= i <= j < |v| ==> 0.0 <= v[i] <= v[j]
  {
    var v := VarCAAR(varAAR, ews);
    forall i, j | 0 <= i <= j < |v| ensures 0.0 <= v[i] <= v[j] {
      PrefixSumsGrow(varAAR, Bound(i + 1, |varAAR|), Bound(j + 1, |varAAR|));
    }
  }

  /** Longer prefixes of a non-negative vector have larger sums. */
  lemma PrefixSumsGrow(s: seq<real>, a: nat, b: nat)
    requires a <= b <= |s|
    requires forall k :: 0 <= k < |s| ==> s[k] >= 0.0
    ensures 0.0 <= Sum(s[..a]) <= Sum(s[..b])
  {
    assert s[..b] == s[..a] + s[a..b];
    SumConcat(s[..a], s[a..b]);
    SumNonNegative(s[..a]);
    SumNonNegative(s[a..b]);
  }

  /** var_CAAR has one entry per window day; it is the running sum of
      var_AAR over the days var_AAR covers, and stays at the total beyond
      them. */
  lemma VarCAARRunningSum(sample: seq<Event>, errors: Option<seq<Record>>)
    requires sample != [] && Aggregable(sample)
    ensures var b := Aggregate(sample, errors);
      && |b.varCAAR| == Count(b.eventWindowSize)
      && forall i :: 0 <= i < |b.varCAAR| ==>
        b.varCAAR[i] == if i < |b.varAAR| then CumSum(b.varAAR)[i] else Sum(b.varAAR)
  {
    var b := Aggregate(sample, errors);
    assert b.varAAR[..|b.varAAR|] == b.varAAR;
  }

  /** CAAR, the running sum of the mean AR, equals the mean of the events'
      CARs: the route the deprecated `__computeByCAR` took. */
  lemma CAARFromCARs(sample: seq<Event>, errors: Option<seq<Record>>)
    requires sample != [] && Aggregable(sample)
    requires forall e :: 0 <= e < |sample| ==> sample[e].car == CumSum(sample[e].ar)
    ensures Aggregate(sample, errors).caar == ColumnMeans(CARs(sample), |sample[0].car|)
  {
    var m := |sample[0].ar|;
    var ars, cars := ARs(sample), CARs(sample);
    assert |sample[0].car| == m;
    MeanOfRunningSums(ars, cars, m);
  }

  /** The running sum of the column means of some rows is the column mean
      of their running sums. */
  lemma MeanOfRunningSums(rows: seq<seq<real>>, sums: seq<seq<real>>, m: nat)
    requires rows != [] && Uniform(rows, m)
    requires |sums| == |rows| && forall e :: 0 <= e < |rows| ==> sums[e] == CumSum(rows[e])
    ensures Uniform(sums, m)
    ensures CumSum(ColumnMeans(rows, m)) == ColumnMeans(sums, m)
  {
    var c := 1.0 / |rows| as real;
    CumSumScale(c, VecSum(rows, m));
    CumSumVecSum(rows, m, sums);
  }

  /** At every event day the mean CAR lies between the smallest and the
      largest, and the variance is non-negative. */
  lemma CARDistOrdered(sample: seq<Event>, errors: Option<seq<Record>>)
    requires sample != [] && Aggregable(sample)
    ensures var d := Aggregate(sample, errors).carDist;
      && |d.mean| == |d.min| == |d.max| == |d.variance|
      && forall t :: 0 <= t < |d.mean| ==> d.min[t] <= d.mean[t] <= d.max[t] && d.variance[t] >= 0.0
  {
    var cars := CARs(sample);
    var d := Aggregate(sample, errors).carDist;
    forall t | 0 <= t < |d.mean| ensures d.min[t] <= d.mean[t] <= d.max[t] {
      MeanBetween(Column(cars, t));
    }
  }

  /** `self.CAR` lists the events' terminal CARs in sample order; when every
      CAR is the running sum of its ARs, that is the total of the event's
      abnormal returns. */
  lemma TerminalCARIsTotal(sample: seq<Event>, errors: Option<seq<Record>>)
    requires sample != [] && Aggregable(sample)
    requires forall e :: 0 <= e < |sample| ==> sample[e].car == CumSum(sample[e].ar)
    ensures |Aggregate(sample, errors).car| == |sample|
    ensures forall e :: 0 <= e < |sample| ==> Aggregate(sample, errors).car[e] == Sum(sample[e].ar)
  {
    var t := Terminal(CARs(sample));
    assert Aggregate(sample, errors).car == t;
    forall e | 0 <= e < |sample| ensures t[e] == Sum(sample[e].ar) {
      var ar := sample[e].ar;
      assert ar[..|ar|] == ar;
    }
  }

  // ---------------------------------------------------------------------
  // The batch runner
  // ---------------------------------------------------------------------

  /** An event study classmethod called with an event's keyword parameters
      and the batch's window, estimation size, buffer size and keep flag. */
  type EventModel = (Record, Single.Window, int, int, bool) -> Result<Event, Failure>

  /** The study of every event, in order. */
  function Outcomes(events: seq<Record>, study: EventModel, window: Single.Window, est: int, buf: int,
                    keep: bool): (o: seq<Result<Event, Failure>>)
    ensures |o| == |events|
    ensures forall i :: 0 <= i < |events| ==> o[i] == study(events[i], window, est, buf, keep)
  {
    seq(|events|, i requires 0 <= i < |events| => study(events[i], window, est, buf, keep))
  }

  /** The exceptions the batch runner can set aside. */
  predicate Captured(f: Failure)
  {
    f.Custom? && f.kind in {ColumnMissing, DateMissing, DataMissing}
  }

  /** An outcome that does not stop the batch. */
  predicate Admitted(o: Result<Event, Failure>, ignore: bool)
  {
    o.Ok? || (ignore && Captured(o.error))
  }

  /** The parameters of a failed event, tagged with the class name and the
      helper text of its exception. */
  function Tagged(params: Record, f: Failure): (r: Record)
    requires f.Custom?
    ensures Get(r, "error_type") == Some(Text(ClassName(f)))
    ensures Get(r, "error_msg") == Some(Text(f.helper))
    ensures forall k :: k != "error_type" && k != "error_msg" ==> Get(r, k) == Get(params, k)
  {
    var r1 := Put(params, "error_type", Text(ClassName(f)));
    var r2 := Put(r1, "error_msg", Text(f.helper));
    PutGet(r1, "error_msg", Text(f.helper), "error_type");
    PutGet(params, "error_type", Text(ClassName(f)), "error_type");
    forall k | k != "error_type" && k != "error_msg" ensures Get(r2, k) == Get(params, k) {
      PutGet(params, "error_type", Text(ClassName(f)), k);
      PutGet(r1, "error_msg", Text(f.helper), k);
    }
    r2
  }

  datatype Routed = Routed(sample: seq<Event>, errors: seq<Record>)

  /** What `from_list` collects from the outcomes of the events: each study
      that succeeds joins the sample, each captured failure joins the
      errors when they are ignored, and any other outcome stops the batch
      with its error. */
  function Route(events: seq<Record>, outcomes: seq<Result<Event, Failure>>, ignore: bool): (r: Result<Routed, Failure>)
    requires |outcomes| == |events|
    ensures r.Ok? <==> forall i :: 0 <= i < |events| ==> Admitted(outcomes[i], ignore)
    ensures r.Ok? ==> |r.value.sample| + |r.value.errors| == |events|
  {
    if events == [] then Ok(Routed([], []))
    else
      var n := |events| - 1;
      var prev :- Route(events[..n], outcomes[..n], ignore);
      assert forall i :: 0 <= i < n ==> outcomes[..n][i] == outcomes[i];
      match outcomes[n]
      case Ok(e) => Ok(Routed(prev.sample + [e], prev.errors))
      case Err(f) =>
        if ignore && Captured(f) then Ok(Routed(prev.sample, prev.errors + [Tagged(events[n], f)]))
        else Err(f)
  }

  /** Positions in a sequence of length n, in increasing order. */
  predicate Positions(p: seq<nat>, n: nat)
  {
    && (forall j :: 0 <= j < |p| ==> p[j] < n)
    && (forall j, k :: 0 <= j < k < |p| ==> p[j] < p[k])
  }

  /** Witnesses for all but the last event are witnesses for all of them,
      none naming the last. */
  lemma WitnessesWiden(events: seq<Record>, outcomes: seq<Result<Event, Failure>>, r: Routed,
                       taken: seq<nat>, dropped: seq<nat>)
    requires |outcomes| == |events| > 0
    requires Witnesses(events[..|events| - 1], outcomes[..|events| - 1], r, taken, dropped)
    ensures Witnesses(events, outcomes, r, taken, dropped)
    ensures Positions(taken, |events| - 1) && Positions(dropped, |events| - 1)
  {
    var n := |events| - 1;
    assert forall i :: 0 <= i < n ==> outcomes[..n][i] == outcomes[i] && events[..n][i] == events[i];
  }

  /** Positions below `n` stay positions as `n` grows, and `n` may follow them. */
  lemma PositionsAppend(p: seq<nat>, n: nat)
    requires Positions(p, n)
    ensures Positions(p, n + 1) && Positions(p + [n], n + 1)
  {
    var q := p + [n];
    forall j, k | 0 <= j < k < |q| ensures q[j] < q[k] {
      if k < |p| {
        assert q[j] == p[j] && q[k] == p[k];
      }
    }
  }

  /** `taken` and `dropped` are the input positions, in order, of the
      sample's events and of the error records of `r`: every sample event
      is the outcome at its position, and every error record tags the
      parameters at its position with a captured exception. */
  predicate Witnesses(events: seq<Record>, outcomes: seq<Result<Event, Failure>>, r: Routed,
                      taken: seq<nat>, dropped: seq<nat>)
    requires |outcomes| == |events|
  {
    && Positions(taken, |events|) && Positions(dropped, |events|)
    && (forall j, k :: 0 <= j < |taken| && 0 <= k < |dropped| ==> taken[j] != dropped[k])
    && |taken| == |r.sample| && |dropped| == |r.errors|
    && (forall j :: 0 <= j < |taken| ==> outcomes[taken[j]] == Ok(r.sample[j]))
    && (forall j :: 0 <= j < |dropped| ==>
          && outcomes[dropped[j]].Err?
          && Captured(outcomes[dropped[j]].error)
          && r.errors[j] == Tagged(events[dropped[j]], outcomes[dropped[j]].error))
  }

  /** Every event goes to exactly one of the sample and the errors, and
      both keep the order of the input. */
  lemma {:induction false} RouteOrder(events: seq<Record>, outcomes: seq<Result<Event, Failure>>, ignore: bool)
    returns (taken: seq<nat>, dropped: seq<nat>)
    requires |outcomes| == |events|
    requires Route(events, outcomes, ignore).Ok?
    ensures Witnesses(events, outcomes, Route(events, outcomes, ignore).value, taken, dropped)
  {
    if events == [] {
      taken, dropped := [], [];
    } else {
      var n := |events| - 1;
      taken, dropped := RouteOrder(events[..n], outcomes[..n], ignore);
      var prev := Route(events[..n], outcomes[..n], ignore).value;
      if outcomes[n].Ok? {
        TakenGrows(events, outcomes, prev, taken, dropped);
        taken := taken + [n];
      } else {
        DroppedGrows(events, outcomes, prev, taken, dropped);
        dropped := dropped + [n];
      }
    }
  }

  lemma TakenGrows(events: seq<Record>, outcomes: seq<Result<Event, Failure>>, r: Routed,
                   taken: seq<nat>, dropped: seq<nat>)
    requires |outcomes| == |events| > 0
    requires Witnesses(events[..|events| - 1], outcomes[..|events| - 1], r, taken, dropped)
    requires outcomes[|events| - 1].Ok?
    ensures Witnesses(events, outcomes, Routed(r.sample + [outcomes[|events| - 1].value], r.errors),
                      taken + [|events| - 1], dropped)
  {
    var n := |events| - 1;
    assert forall i :: 0 <= i < n ==> outcomes[..n][i] == outcomes[i] && events[..n][i] == events[i];
  }

  lemma DroppedGrows(events: seq<Record>, outcomes: seq<Result<Event, Failure>>, r: Routed,
                     taken: seq<nat>, dropped: seq<nat>)
    requires |outcomes| == |events| > 0
    requires Witnesses(events[..|events| - 1], outcomes[..|events| - 1], r, taken, dropped)
    requires outcomes[|events| - 1].Err? && Captured(outcomes[|events| - 1].error)
    ensures Witnesses(events, outcomes,
                      Routed(r.sample, r.errors + [Tagged(events[|events| - 1], outcomes[|events| - 1].error)]),
                      taken, dropped + [|events| - 1])
  {
    var n := |events| - 1;
    var d := dropped + [n];
    var errs := r.errors + [Tagged(events[n], outcomes[n].error)];
    WitnessesWiden(events, outcomes, r, taken, dropped);
    PositionsAppend(dropped, n);
    forall j, k | 0 <= j < |taken| && 0 <= k < |d| ensures taken[j] != d[k] {
      if k < |dropped| {
        assert d[k] == dropped[k];
      }
    }
    forall j | 0 <= j < |d|
      ensures outcomes[d[j]].Err? && Captured(outcomes[d[j]].error)
      ensures errs[j] == Tagged(events[d[j]], outcomes[d[j]].error)
    {
      if j < |dropped| {
        assert d[j] == dropped[j] && errs[j] == r.errors[j];
      }
    }
  }

  /** A batch that stops does so at the first event whose outcome is not
      admitted, with that event's error. */
  lemma {:induction false} RouteStops(events: seq<Record>, outcomes: seq<Result<Event, Failure>>, ignore: bool)
    returns (i: nat)
    requires |outcomes| == |events|
    requires Route(events, outcomes, ignore).Err?
    ensures i < |events| && outcomes[i].Err?
    ensures !Admitted(outcomes[i], ignore)
    ensures forall j :: 0 <= j < i ==> Admitted(outcomes[j], ignore)
    ensures Route(events, outcomes, ignore).error == outcomes[i].error
  {
    var n := |events| - 1;
    assert forall j :: 0 <= j < n ==> outcomes[..n][j] == outcomes[j];
    if Route(events[..n], outcomes[..n], ignore).Err? {
      i := RouteStops(events[..n], outcomes[..n], ignore);
    } else {
      i := n;
    }
  }

  /** A failure stops the routing of every longer run of events in the
      same way. */
  lemma {:induction false} RouteKeepsError(events: seq<Record>, outcomes: seq<Result<Event, Failure>>, k: nat, ignore: bool)
    requires |outcomes| == |events| && k <= |events|
    requires Route(events[..k], outcomes[..k], ignore).Err?
    ensures Route(events, outcomes, ignore) == Route(events[..k], outcomes[..k], ignore)
    decreases |events|
  {
    if k < |events| {
      var n := |events| - 1;
      assert events[..n][..k] == events[..k];
      assert outcomes[..n][..k] == outcomes[..k];
      RouteKeepsError(events[..n], outcomes[..n], k, ignore);
    } else {
      assert events[..k] == events;
      assert outcomes[..k] == outcomes;
    }
  }

  /** `Multiple.from_list`: runs the study of every event in order, sets
      aside the events whose data are missing when errors are ignored,
      re-raises anything else, and aggregates the sample. */
  method FromList(events: seq<Record>, study: EventModel, window: Single.Window, est: int, buf: int,
                  keep: bool, ignore: bool) returns (r: Result<Batch, Failure>)
    ensures var routed := Route(events, Outcomes(events, study, window, est, buf, keep), ignore);
      && (routed.Err? ==> r == Err(routed.error))
      && (routed.Ok? ==> r == NewBatch(routed.value.sample, Some(routed.value.errors)))
  {
    ghost var outcomes := Outcomes(events, study, window, est, buf, keep);
    var sample: seq<Event> := [];
    var errors: seq<Record> := [];
    var i := 0;
    while i < |events|
      invariant 0 <= i <= |events|
      invariant Route(events[..i], outcomes[..i], ignore) == Ok(Routed(sample, errors))
    {
      var params := events[i];
      assert events[..i + 1][..i] == events[..i];
      assert outcomes[..i + 1][..i] == outcomes[..i];
      var outcome := study(params, window, est, buf, keep);
      assert outcome == outcomes[..i + 1][i];
      if outcome.Ok? {
        sample := sample + [outcome.value];
      } else if ignore && Captured(outcome.error) {
        errors := errors + [Tagged(params, outcome.error)];
      } else {
        RouteKeepsError(events, outcomes, i + 1, ignore);
        return Err(outcome.error);
      }
      i := i + 1;
    }
    assert events[..i] == events;
    assert outcomes[..i] == outcomes;
    r := NewBatch(sample, Some(errors));
  }

  // ---------------------------------------------------------------------
  // Event lists as text
  // ---------------------------------------------------------------------

  /** The whitespace-stripped comma-separated fields of a line. */
  function Fields(line: string): (r: seq<string>)
    ensures |r| == |Split(line, ',')|
    ensures forall j :: 0 <= j < |r| ==> r[j] == Strip(Split(line, ',')[j])
  {
    var parts := Split(line, ',');
    seq(|parts|, j requires 0 <= j < |parts| => Strip(parts[j]))
  }

  /** `{headers[i]: v for i, v in enumerate(row)}`: IndexError when the
      row has more fields than there are headers. */
  function RowRecord(headers: seq<string>, row: seq<string>): (r: Result<Record, Failure>)
    ensures r.Ok? <==> |row| <= |headers|
    ensures r.Err? ==> r.error == Builtin("IndexError")
  {
    if |row| > |headers| then Err(Builtin("IndexError"))
    else Ok(Entries(headers, row))
  }

  function Entries(headers: seq<string>, row: seq<string>): Record
    requires |row| <= |headers|
  {
    if row == [] then []
    else
      var n := |row| - 1;
      Put(Entries(headers, row[..n]), headers[n], Text(row[n]))
  }

  predicate Distinct(keys: seq<string>)
  {
    forall i, j :: 0 <= i < j < |keys| ==> keys[i] != keys[j]
  }

  /** With distinct headers, the record of a row pairs each field with the
      header in its position, in order. */
  lemma {:induction false} EntriesPaired(headers: seq<string>, row: seq<string>)
    requires |row| <= |headers| && Distinct(headers)
    ensures Entries(headers, row) == seq(|row|, j requires 0 <= j < |row| => (headers[j], Text(row[j])))
  {
    if row != [] {
      var n := |row| - 1;
      EntriesPaired(headers, row[..n]);
      var prev := Entries(headers, row[..n]);
      var entry := (headers[n], Text(row[n]));
      forall j | 0 <= j < n ensures prev[j].0 != headers[n] {
        assert prev[j].0 == headers[j];
      }
      assert Entries(headers, row) == prev + [entry];
      var want := seq(|row|, j requires 0 <= j < |row| => (headers[j], Text(row[j])));
      forall j | 0 <= j < |row| ensures (prev + [entry])[j] == want[j] {
        if j < n {
          assert row[..n][j] == row[j];
        }
      }
    }
  }

  /** The records of the rows under the header line, in order; the first
      row with too many fields raises IndexError. */
  function Records(headers: seq<string>, rows: seq<seq<string>>): (r: Result<seq<Record>, Failure>)
    ensures r.Ok? <==> forall i :: 0 <= i < |rows| ==> |rows[i]| <= |headers|
    ensures r.Err? ==> r.error == Builtin("IndexError")
    ensures r.Ok? ==> |r.value| == |rows|
    ensures r.Ok? ==> forall i :: 0 <= i < |rows| ==> r.value[i] == Entries(headers, rows[i])
  {
    if rows == [] then Ok([])
    else
      var n := |rows| - 1;
      var prev :- Records(headers, rows[..n]);
      assert forall i :: 0 <= i < n ==> rows[..n][i] == rows[i];
      var rec :- RowRecord(headers, rows[n]);
      Ok(prev + [rec])
  }

  /** `event["event_date"] = np.datetime64(strptime(event["event_date"], fmt))`
      with the parse as a parameter: KeyError without an "event_date" key,
      ValueError when the text does not parse. */
  function SetDate(rec: Record, parse: string -> Option<Date>): (r: Result<Record, Failure>)
    ensures Get(rec, "event_date").None? ==> r == Err(Builtin("KeyError"))
    ensures Get(rec, "event_date").Some? && Get(rec, "event_date").value.Text? ==>
      var d := parse(Get(rec, "event_date").value.text);
      && (d.None? ==> r == Err(Builtin("ValueError")))
      && (d.Some? ==> r.Ok? && Get(r.value, "event_date") == Some(When(d.value)) && |r.value| == |rec|)
    ensures r.Ok? ==> forall k :: k != "event_date" ==> Get(r.value, k) == Get(rec, k)
  {
    match Get(rec, "event_date")
    case None => Err(Builtin("KeyError"))
    case Some(When(_)) => Err(Builtin("TypeError"))
    case Some(Text(s)) =>
      match parse(s)
      case None => Err(Builtin("ValueError"))
      case Some(d) =>
        PutGet(rec, "event_date", When(d), "event_date");
        assert forall k :: k != "event_date" ==> Get(Put(rec, "event_date", When(d)), k) == Get(rec, k) by {
          forall k | k != "event_date" ensures Get(Put(rec, "event_date", When(d)), k) == Get(rec, k) {
            PutGet(rec, "event_date", When(d), k);
          }
        }
        Ok(Put(rec, "event_date", When(d)))
  }

  /** The event dates of all records parsed in order; the first record
      that fails stops the parse with its error. */
  function SetDates(recs: seq<Record>, parse: string -> Option<Date>): (r: Result<seq<Record>, Failure>)
    ensures r.Ok? <==> forall i :: 0 <= i < |recs| ==> SetDate(recs[i], parse).Ok?
    ensures r.Err? ==> exists i :: 0 <= i < |recs| && SetDate(recs[i], parse).Err?
                        && r.error == SetDate(recs[i], parse).error
    ensures r.Ok? ==> |r.value| == |recs|
    ensures r.Ok? ==> forall i :: 0 <= i < |recs| ==> r.value[i] == SetDate(recs[i], parse).value
  {
    if recs == [] then Ok([])
    else
      var n := |recs| - 1;
      var prev :- SetDates(recs[..n], parse);
      assert forall i :: 0 <= i < n ==> recs[..n][i] == recs[i];
      var rec :- SetDate(recs[n], parse);
      Ok(prev + [rec])
  }

  /** The fields of every line after the header line. */
  function Rows(lines: seq<string>): (rows: seq<seq<string>>)
    requires lines != []
    ensures |rows| == |lines| - 1
    ensures forall i :: 0 <= i < |rows| ==> rows[i] == Fields(lines[i + 1])
  {
    seq(|lines| - 1, i requires 0 <= i < |lines| - 1 => Fields(lines[i + 1]))
  }

  /** The records of an event list before their dates are parsed: the
      first line holds the headers and every further line one event. */
  function RawEvents(text: string): Result<seq<Record>, Failure>
  {
    var lines := Split(text, '\n');
    Records(Fields(lines[0]), Rows(lines))
  }

  /** The event list `from_text` hands to `from_list`. */
  function ParseEvents(text: string, parse: string -> Option<Date>): (r: Result<seq<Record>, Failure>)
  {
    var recs :- RawEvents(text);
    SetDates(recs, parse)
  }

  /** `rec` pairs the j-th field of `row` with the j-th header, in order,
      and holds the parsed date under "event_date". */
  predicate LaidOut(rec: Record, headers: seq<string>, row: seq<string>, parse: string -> Option<Date>)
  {
    && |rec| == |row| <= |headers|
    && forall j :: 0 <= j < |row| ==>
      && rec[j].0 == headers[j]
      && (headers[j] != "event_date" ==> rec[j].1 == Text(row[j]))
      && (headers[j] == "event_date" ==> parse(row[j]).Some? && rec[j].1 == When(parse(row[j]).value))
  }

  /** One record per line after the header line; with distinct headers the
      j-th field of a line is stored, stripped, under the j-th header, and
      the "event_date" field holds the parsed date. */
  lemma ParsedEvents(text: string, parse: string -> Option<Date>)
    requires ParseEvents(text, parse).Ok?
    requires Distinct(Fields(Split(text, '\n')[0]))
    ensures |ParseEvents(text, parse).value| == |Split(text, '\n')| - 1
    ensures forall i :: 0 <= i < |ParseEvents(text, parse).value| ==>
      LaidOut(ParseEvents(text, parse).value[i], Fields(Split(text, '\n')[0]), Fields(Split(text, '\n')[i + 1]), parse)
  {
    var lines := Split(text, '\n');
    var headers := Fields(lines[0]);
    var rows := Rows(lines);
    var recs := RawEvents(text).value;
    var r := SetDates(recs, parse).value;
    forall i | 0 <= i < |r|
      ensures LaidOut(r[i], headers, rows[i], parse)
    {
      EntriesPaired(headers, rows[i]);
      SetDateInPlace(recs[i], parse, headers, rows[i]);
    }
  }

  /** Parsing the date of a record laid out by distinct headers replaces the
      date text by the date and leaves every other entry where it was. */
  lemma SetDateInPlace(rec: Record, parse: string -> Option<Date>, headers: seq<string>, row: seq<string>)
    requires |row| <= |headers| && Distinct(headers)
    requires rec == seq(|row|, j requires 0 <= j < |row| => (headers[j], Text(row[j])))
    requires SetDate(rec, parse).Ok?
    ensures LaidOut(SetDate(rec, parse).value, headers, row, parse)
  {
    var i := KeyIndex(rec, "event_date").value;
    assert forall j :: 0 <= j < |row| && headers[j] == "event_date" ==> j == i;
  }

  /** A text that ends with a newline is refused: the empty last line is a
      record holding an empty first field, which has no parsable date. */
  lemma TrailingNewlineRefused(text: string, parse: string -> Option<Date>)
    requires parse("") == None
    ensures ParseEvents(text + "\n", parse).Err?
  {
    var lines := Split(text + "\n", '\n');
    var rows := Rows(lines);
    LastRowEmpty(text);
    var recs := RawEvents(text + "\n");
    if recs.Ok? {
      var headers := Fields(lines[0]);
      var last := |rows| - 1;
      assert recs.value[last] == Entries(headers, [""]);
      EmptyRowRecord(headers);
      EmptyDateRefused(headers[0], parse);
      assert SetDate(recs.value[last], parse).Err?;
      assert ParseEvents(text + "\n", parse) == SetDates(recs.value, parse);
    }
  }

  /** The line after a trailing newline is empty, so its row is one empty field. */
  lemma LastRowEmpty(text: string)
    ensures var lines := Split(text + "\n", '\n');
      |lines| >= 2 && Rows(lines)[|lines| - 2] == [""]
  {
    var lines := Split(text + "\n", '\n');
    SplitAppended(text, '\n');
    assert lines[|lines| - 1] == "";
    assert Split("", ',') == [""];
    assert Strip("") == "";
  }

  lemma EmptyRowRecord(headers: seq<string>)
    requires |headers| >= 1
    ensures Entries(headers, [""]) == [(headers[0], Text(""))]
  {
    assert [""][..0] == [];
  }

  lemma EmptyDateRefused(header: string, parse: string -> Option<Date>)
    requires parse("") == None
    ensures SetDate([(header, Text(""))], parse).Err?
  {
    if header == "event_date" {
      assert Get([(header, Text(""))], "event_date") == Some(Text(""));
    } else {
      assert Get([(header, Text(""))], "event_date") == None;
    }
  }

  /** `Multiple.from_text`: splits the text into the headers and the rows,
      builds one record per row, parses the date of each record in turn and
      runs `from_list` on the result. */
  method FromText(text: string, parse: string -> Option<Date>, study: EventModel, window: Single.Window,
                  est: int, buf: int, keep: bool, ignore: bool) returns (r: Result<Batch, Failure>)
    ensures ParseEvents(text, parse).Err? ==> r == Err(ParseEvents(text, parse).error)
    ensures ParseEvents(text, parse).Ok? ==>
      var events := ParseEvents(text, parse).value;
      var routed := Route(events, Outcomes(events, study, window, est, buf, keep), ignore);
      && (routed.Err? ==> r == Err(routed.error))
      && (routed.Ok? ==> r == NewBatch(routed.value.sample, Some(routed.value.errors)))
  {
    var raw := RawEvents(text);
    if raw.Err? {
      return Err(raw.error);
    }
    var events := DateEvents(raw.value, parse);
    if events.Err? {
      return Err(events.error);
    }
    r := FromList(events.value, study, window, est, buf, keep, ignore);
  }

  /** The loop of `from_text` that replaces the date text of every event,
      in order, by its parsed date. */
  method DateEvents(recs: seq<Record>, parse: string -> Option<Date>) returns (r: Result<seq<Record>, Failure>)
    ensures r == SetDates(recs, parse)
  {
    var events := recs;
    var i := 0;
    while i < |events|
      invariant 0 <= i <= |events| == |recs|
      invariant SetDates(recs[..i], parse).Ok?
      invariant events[..i] == SetDates(recs[..i], parse).value
      invariant events[i..] == recs[i..]
    {
      assert events[i] == recs[i];
      var dated := SetDate(events[i], parse);
      if dated.Err? {
        SetDatesStops(recs, i, parse);
        return Err(dated.error);
      }
      assert recs[..i + 1][..i] == recs[..i];
      events := events[i := dated.value];
      i := i + 1;
    }
    assert recs[..i] == recs;
    assert events[..i] == events;
    r := Ok(events);
  }

  /** The first record whose date fails decides the error of the parse. */
  lemma {:induction false} SetDatesStops(recs: seq<Record>, k: nat, parse: string -> Option<Date>)
    requires k < |recs|
    requires SetDates(recs[..k], parse).Ok? && SetDate(recs[k], parse).Err?
    ensures SetDates(recs, parse) == Err(SetDate(recs[k], parse).error)
    decreases |recs|
  {
    var n := |recs| - 1;
    var front := recs[..n];
    if k < n {
      assert front[..k] == recs[..k] && front[k] == recs[k];
      SetDatesStops(front, k, parse);
      assert SetDates(front, parse).Err?;
    } else {
      assert front == recs[..k];
      assert SetDate(recs[n], parse).Err?;
    }
  }

  // ---------------------------------------------------------------------
  // The error report
  // ---------------------------------------------------------------------

  /** The four cells of one error's table entry. */
  datatype Cells = Cells(errorType: string, date: string, errorMsg: string, parameters: string)

  /** The `lengths` dictionary: the width of each column. */
  datatype Widths = Widths(errorType: nat, date: nat, errorMsg: nat, parameters: nat)

  const InitialWidths := Widths(5, 5, 0, 11)

  /** "key: value" for every remaining parameter, joined with "; ". */
  function ParameterText(r: Record): string
  {
    Join(seq(|r|, j requires 0 <= j < |r| => r[j].0 + ": " + ValueStr(r[j].1)), "; ")
  }

  /** An error record that holds the three keys the report pops. */
  predicate Reportable(error: Record)
  {
    && Get(error, "error_type").Some?
    && Get(error, "event_date").Some?
    && Get(error, "error_msg").Some?
  }

  /** The cells of one error, popped from a copy of its parameters: its
      exception class, its date and its message, each as text; an error
      without one of the three keys raises KeyError. */
  function ErrorCells(error: Record): (r: Result<Cells, Failure>)
    ensures r.Ok? <==> Reportable(error)
    ensures r.Err? ==> r.error == Builtin("KeyError")
    ensures r.Ok? ==>
      && r.value.errorType == ValueStr(Get(error, "error_type").value)
      && r.value.date == ValueStr(Get(error, "event_date").value)
      && r.value.errorMsg == ValueStr(Get(error, "error_msg").value)
  {
    if !Reportable(error) then Err(Builtin("KeyError"))
    else
      Ok(Cells(ValueStr(Get(error, "error_type").value), ValueStr(Get(error, "event_date").value),
               ValueStr(Get(error, "error_msg").value), ParameterText(Remaining(error))))
  }

  /** The parameters left after popping the three keys, in order. */
  function Remaining(error: Record): Record
  {
    Remove(Remove(Remove(error, "error_type"), "event_date"), "error_msg")
  }

  /** The parameters left for the report are exactly what popping the
      three keys in turn leaves, as `error_report` does. */
  lemma RemainingIsPopped(error: Record)
    requires Reportable(error)
    ensures var p1 := Pop(error, "error_type");
      && p1.Ok? && Pop(p1.value.1, "event_date").Ok?
      && Pop(Pop(p1.value.1, "event_date").value.1, "error_msg").Ok?
      && Remaining(error) == Pop(Pop(p1.value.1, "event_date").value.1, "error_msg").value.1
  {
    var p1 := Pop(error, "error_type").value.1;
    PopGet(error, "error_type", "event_date");
    PopGet(error, "error_type", "error_msg");
    PopRemove(error, "error_type");
    var p2 := Pop(p1, "event_date").value.1;
    PopGet(p1, "event_date", "error_msg");
    PopRemove(p1, "event_date");
    PopRemove(p2, "error_msg");
  }

  /** The cells of every error in order; the first error missing a key
      raises KeyError. */
  function Table(errors: seq<Record>): (r: Result<seq<Cells>, Failure>)
    ensures r.Ok? <==> forall i :: 0 <= i < |errors| ==> Reportable(errors[i])
    ensures r.Err? ==> r.error == Builtin("KeyError")
    ensures r.Ok? ==> |r.value| == |errors|
    ensures r.Ok? ==> forall i :: 0 <= i < |errors| ==> Ok(r.value[i]) == ErrorCells(errors[i])
  {
    MapResultsAll(errors, ErrorCells);
    MapResults(errors, ErrorCells)
  }

  function Max(a: nat, b: nat): nat
  {
    if a < b then b else a
  }

  /** One pass of the `lengths` update over the cells of an error. */
  function Widen(w: Widths, c: Cells): Widths
  {
    Widths(Max(w.errorType, |c.errorType|), Max(w.date, |c.date|),
           Max(w.errorMsg, |c.errorMsg|), Max(w.parameters, |c.parameters|))
  }

  /** The column widths after every error: each at least its initial width
      and every cell of its column, and equal to one of them. */
  function WidthsOf(table: seq<Cells>): (w: Widths)
    ensures w.errorType >= 5 && w.date >= 5 && w.parameters >= 11
    ensures forall i :: 0 <= i < |table| ==>
      && |table[i].errorType| <= w.errorType && |table[i].date| <= w.date
      && |table[i].errorMsg| <= w.errorMsg && |table[i].parameters| <= w.parameters
    ensures w.errorType == 5 || exists i :: 0 <= i < |table| && w.errorType == |table[i].errorType|
    ensures w.date == 5 || exists i :: 0 <= i < |table| && w.date == |table[i].date|
    ensures w.errorMsg == 0 || exists i :: 0 <= i < |table| && w.errorMsg == |table[i].errorMsg|
    ensures w.parameters == 11 || exists i :: 0 <= i < |table| && w.parameters == |table[i].parameters|
  {
    if table == [] then InitialWidths
    else
      var n := |table| - 1;
      assert forall i :: 0 <= i < n ==> table[..n][i] == table[i];
      Widen(WidthsOf(table[..n]), table[n])
  }

  /** The three cells of a table line, separated by single spaces. */
  function Line(c: Cells, w: Widths): string
  {
    LJust(c.errorType, w.errorType) + " " + LJust(c.date, w.date) + " " + LJust(c.parameters, w.parameters)
  }

  /** The entry of one error: its line and its description. */
  function Entry(c: Cells, w: Widths): string
  {
    "\n" + Line(c, w) + "\nDescription: " + c.errorMsg + "\n"
  }

  function TableText(table: seq<Cells>, w: Widths): string
  {
    if table == [] then "" else TableText(table[..|table| - 1], w) + Entry(table[|table| - 1], w)
  }

  /** The rule above and below the table: dashes under each column, the
      columns separated by a space. */
  function MidRule(w: Widths): (s: string)
    ensures |s| == w.errorType + w.date + w.parameters + 2
    ensures forall k :: 0 <= k < |s| ==> s[k] == '-' || s[k] == ' '
  {
    Repeat('-', w.errorType) + " " + Repeat('-', w.date) + " " + Repeat('-', w.parameters)
  }

  function Header(w: Widths): string
  {
    LJust("Error", w.errorType) + LJust(" Date", w.date) + LJust("  Parameters", w.parameters) + "\n"
  }

  /** "One error" or "<n> errors". */
  function CountText(n: int): string
  {
    if n == 1 then "One error" else IntText(n) + " errors"
  }

  const Title := "Error Report\n============\n\n"

  /** The fixed text between the error count and the table. */
  const Advice := " due to data unavailability.\n"
    + "The respective events was not processed and thus removed from the sample.\n"
    + "It does not affect the computation of other events.\n\n"
    + "Help 1: Check if the company was quoted at this date, \n"
    + "Help 2: For event study modelised used Fama-French models,\n"
    + "        check if the Fama-French dataset imported is up-to-date.\n"
    + "Tips:   Re-import all parameters and re-run the event study analysis.\n\n"
    + "Details\n=======\n(You can find more details on errors in the documentation.)\n\n"

  /** The report of n errors whose columns have widths w and whose entries
      read `body`. */
  function Frame(n: int, w: Widths, body: string): (s: string)
    ensures Title + CountText(n) <= s
  {
    Title + CountText(n) + (Advice + Header(w) + MidRule(w) + body + MidRule(w))
  }

  /** The report of a table of errors. */
  function Layout(table: seq<Cells>): string
  {
    Frame(|table|, WidthsOf(table), TableText(table, WidthsOf(table)))
  }

  /** `error_report()`: "No error." without errors; otherwise the preamble,
      the header, and the table of errors between two rules. */
  function Report(errors: Option<seq<Record>>): (r: Result<string, Failure>)
    ensures errors.None? || errors.value == [] ==> r == Ok("No error.")
    ensures errors.Some? ==>
      (r.Ok? <==> forall i :: 0 <= i < |errors.value| ==> Reportable(errors.value[i]))
    ensures r.Err? ==> r.error == Builtin("KeyError")
    ensures r.Ok? && errors.Some? && errors.value != [] ==> Title + CountText(|errors.value|) <= r.value
  {
    if errors.None? || errors.value == [] then Ok("No error.")
    else
      var table :- Table(errors.value);
      Ok(Layout(table))
  }

  /** Every line of the table is exactly as long as the rules around it,
      since no cell is wider than its column. */
  lemma AlignedLines(errors: seq<Record>)
    requires Table(errors).Ok?
    ensures var table := Table(errors).value;
      forall i :: 0 <= i < |table| ==> |Line(table[i], WidthsOf(table))| == |MidRule(WidthsOf(table))|
  {
  }

  /** An error as `from_list` records it shows, in its cells, the class
      name and the helper text of its exception, the event date, and every
      other parameter of the event in its original order. */
  lemma TaggedCells(params: Record, f: Failure)
    requires f.Custom?
    requires Get(params, "event_date").Some?
    requires Get(params, "error_type").None? && Get(params, "error_msg").None?
    ensures ErrorCells(Tagged(params, f)).Ok?
    ensures ErrorCells(Tagged(params, f)).value == Cells(
      ClassName(f), ValueStr(Get(params, "event_date").value), f.helper,
      ParameterText(Remove(params, "event_date")))
  {
    var et, em := ("error_type", Text(ClassName(f))), ("error_msg", Text(f.helper));
    var r1 := params + [et];
    var t := r1 + [em];
    assert Tagged(params, f) == t by {
      assert Put(params, et.0, et.1) == r1;
      PutGet(params, et.0, et.1, em.0);
    }
    assert Remaining(t) == Remove(params, "event_date") by {
      KeyIndexAt(r1, et.0, |params|);
      RemoveAppended(r1, et.0, em);
      RemoveAppended(params, et.0, et);
      assert Remove(t, et.0) == params + [em];
      RemoveAppended(params, "event_date", em);
      var q := Remove(params, "event_date");
      RemoveAbsent(params, "event_date", em.0);
      RemoveAppended(q, em.0, em);
    }
  }

  /** Removing one key keeps every other key absent that was absent. */
  lemma {:induction false} RemoveAbsent(r: Record, key: string, other: string)
    requires KeyIndex(r, other).None?
    ensures KeyIndex(Remove(r, key), other).None?
  {
    if r != [] && r[0].0 != key {
      RemoveAbsent(r[1..], key, other);
    }
  }

  /** Removing a key from a dict with an entry appended removes it before
      the entry when the dict holds the key, and removes the entry itself
      when the dict does not hold it and the entry does. */
  lemma {:induction false} RemoveAppended(r: Record, key: string, e: (string, Value))
    ensures KeyIndex(r, key).Some? ==> Remove(r + [e], key) == Remove(r, key) + [e]
    ensures KeyIndex(r, key).None? && e.0 == key ==> Remove(r + [e], key) == r
  {
    if r != [] {
      assert (r + [e])[0] == r[0];
      assert (r + [e])[1..] == r[1..] + [e];
      if r[0].0 != key {
        RemoveAppended(r[1..], key, e);
        assert KeyIndex(r, key).Some? <==> KeyIndex(r[1..], key).Some?;
        assert Remove(r + [e], key) == [r[0]] + Remove(r[1..] + [e], key);
      }
    }
  }

  /** `Multiple.error_report`: the widths are gathered in a first pass over
      the errors and the entries written in a second; the errors are read,
      never changed. */
  method ErrorReport(errors: Option<seq<Record>>) returns (r: Result<string, Failure>)
    ensures r == Report(errors)
  {
    if errors.None? || |errors.value| == 0 {
      return Ok("No error.");
    }
    var all := errors.value;
    var gathered := GatherCells(all);
    if gathered.Err? {
      return Err(gathered.error);
    }
    var (table, lengths) := gathered.value;
    var text := WriteEntries(table, lengths);
    r := Ok(Frame(|all|, lengths, text));
  }

  /** The first pass of `error_report`: the cells of every error and the
      column widths they need. */
  method GatherCells(all: seq<Record>) returns (r: Result<(seq<Cells>, Widths), Failure>)
    ensures Table(all).Err? ==> r == Err(Table(all).error)
    ensures Table(all).Ok? ==> r == Ok((Table(all).value, WidthsOf(Table(all).value)))
  {
    var table: seq<Cells> := [];
    var lengths := InitialWidths;
    var i := 0;
    while i < |all|
      invariant 0 <= i <= |all|
      invariant MapResults(all[..i], ErrorCells) == Ok(table)
      invariant lengths == WidthsOf(table)
    {
      assert all[..i + 1][..i] == all[..i];
      var cells := ErrorCells(all[i]);
      if cells.Err? {
        MapResultsStops(all, i + 1, ErrorCells);
        return Err(cells.error);
      }
      WidthsStep(table, cells.value);
      table := table + [cells.value];
      lengths := Widen(lengths, cells.value);
      i := i + 1;
    }
    assert all[..i] == all;
    r := Ok((table, lengths));
  }

  lemma WidthsStep(table: seq<Cells>, c: Cells)
    ensures WidthsOf(table + [c]) == Widen(WidthsOf(table), c)
  {
    assert (table + [c])[..|table|] == table;
  }

  /** The second pass of `error_report`: the entries of the table, one
      after the other. */
  method WriteEntries(table: seq<Cells>, lengths: Widths) returns (text: string)
    ensures text == TableText(table, lengths)
  {
    text := "";
    var j := 0;
    while j < |table|
      invariant 0 <= j <= |table|
      invariant text == TableText(table[..j], lengths)
    {
      assert table[..j + 1][..j] == table[..j];
      text := text + Entry(table[j], lengths);
      j := j + 1;
    }
    assert table[..j] == table;
  }
}
