/** The normal-return models of eventstudy/models.py. Each model function
    takes the data columns of one security, an estimation size, an event
    window size and a keep-model flag, and returns the abnormal returns
    (residuals) of the event window, the degrees of freedom, the variance of
    the abnormal returns for every day of the window and, when asked, the
    fitted model.

    The least-squares solver is a parameter: `fit(rows, ys)` returns the
    coefficients, one per column of the design rows, and a fitted value is
    the dot product of a design row with them. */
module Models {
  import opened Python
  import opened Numerics
  import opened Exceptions

  /** The model a function hands back when asked to keep it: the estimated
      mean, or the coefficients of the regression (intercept first). */
  datatype Kept = KeptMean(mean: real) | KeptRegression(params: seq<real>)

  /** The tuple a model function returns: residuals of the event window,
      degrees of freedom, per-day variance and the optional kept model. */
  datatype ModelOutput = ModelOutput(residuals: seq<real>, df: int, variance: seq<real>, kept: Option<Kept>)

  /** An ordinary least-squares solver: coefficients for design rows and
      observations. */
  type Fitter = (seq<seq<real>>, seq<real>) -> seq<real>

  /** Dot product over the common length. */
  function Dot(a: seq<real>, b: seq<real>): real
    decreases |a|
  {
    if a == [] || b == [] then 0.0 else a[0] * b[0] + Dot(a[1..], b[1..])
  }

  /** `sm.add_constant(X)`: a leading 1.0 (the intercept) on every row. */
  function AddConstant(x: seq<seq<real>>): (d: seq<seq<real>>)
    ensures |d| == |x|
    ensures forall i :: 0 <= i < |x| ==> d[i] == [1.0] + x[i]
  {
    seq(|x|, i requires 0 <= i < |x| => [1.0] + x[i])
  }

  /** `reg.predict(X)`: the fitted value of every design row. */
  function Predict(design: seq<seq<real>>, coeffs: seq<real>): (r: seq<real>)
    ensures |r| == |design|
    ensures forall i :: 0 <= i < |design| ==> r[i] == Dot(design[i], coeffs)
  {
    seq(|design|, i requires 0 <= i < |design| => Dot(design[i], coeffs))
  }

  /** `np.column_stack(cols)`: row i holds entry i of every column, in the
      order of the columns; columns of different lengths raise ValueError. */
  function ColumnStack(cols: seq<seq<real>>): (r: Result<seq<seq<real>>, Failure>)
    requires cols != []
    ensures r.Ok? <==> forall j :: 0 <= j < |cols| ==> |cols[j]| == |cols[0]|
    ensures r.Err? ==> r.error == Builtin("ValueError")
    ensures r.Ok? ==> |r.value| == |cols[0]|
    ensures r.Ok? ==> forall i :: 0 <= i < |r.value| ==> r.value[i] == FactorRow(cols, i)
  {
    if exists j :: 0 <= j < |cols| && |cols[j]| != |cols[0]| then Err(Builtin("ValueError"))
    else
      Ok(seq(|cols[0]|, i requires 0 <= i < |cols[0]| => FactorRow(cols, i)))
  }

  /** Entry i of every column, in the order of the columns. */
  function FactorRow(cols: seq<seq<real>>, i: nat): (row: seq<real>)
    requires forall j :: 0 <= j < |cols| ==> i < |cols[j]|
    ensures |row| == |cols|
    ensures forall j :: 0 <= j < |cols| ==> row[j] == cols[j][i]
  {
    seq(|cols|, j requires 0 <= j < |cols| => cols[j][i])
  }

  /** `np.array(a) - np.array(b)` with numpy broadcasting: elementwise for
      equal lengths, against the single entry of a one-element operand, and
      ValueError otherwise. */
  function BroadcastSub(a: seq<real>, b: seq<real>): (r: Result<seq<real>, Failure>)
    ensures r.Ok? <==> (|a| == |b| || |a| == 1 || |b| == 1)
    ensures r.Err? ==> r.error == Builtin("ValueError")
    ensures r.Ok? ==> |r.value| == (if |a| == |b| || |b| == 1 then |a| else |b|)
    ensures r.Ok? ==> forall k :: 0 <= k < |r.value| ==>
      r.value[k] == (if |a| == |b| || |a| != 1 then a[k] else a[0])
                  - (if |a| == |b| || |b| != 1 then b[k] else b[0])
  {
    if |a| == |b| then Ok(Sub(a, b))
    else if |b| == 1 then Ok(Shift(a, b[0]))
    else if |a| == 1 then Ok(seq(|b|, k requires 0 <= k < |b| => a[0] - b[k]))
    else Err(Builtin("ValueError"))
  }

  /** Entry k of an operand under numpy broadcasting: a one-entry operand
      stands for every position. */
  function At<T>(s: seq<T>, k: int): T
    requires |s| == 1 || 0 <= k < |s|
  {
    if |s| == 1 then s[0] else s[k]
  }

  /** The length of `Y - reg.predict(X)` for n design rows and m
      observations, when the two broadcast. */
  function Wide(n: nat, m: nat): nat
  {
    if n == 1 then m else n
  }

  /** What `Model.OLS` returns: event-window residuals, degrees of freedom,
      the variance of the estimation residuals, and the regression when it
      is kept. */
  datatype Regression = Regression(residuals: seq<real>, df: int, variance: real, reg: Option<seq<real>>)

  /** The `Model` helper class: sizes and the keep flag, fixed at creation. */
  datatype Model = Model(estimationSize: int, eventWindowSize: int, keepModel: bool) {

    /** `Model.OLS(X, Y)`: adds an intercept, fits on the first
        `estimation_size` rows, computes the residual of every row, keeps
        those of the last `event_window_size` rows, uses `estimation_size - 1`
        degrees of freedom and the population variance of the estimation
        residuals. The fit raises ValueError when the estimation rows and
        observations differ in number; the subtraction broadcasts a single
        row or observation against the other side and raises ValueError on
        any other length mismatch. So X and Y of different lengths pass only
        with one estimation row and one side of length one. An empty
        estimation window (whose variance is NaN) is outside the model. */
    function OLS(x: seq<seq<real>>, y: seq<real>, fit: Fitter): (r: Result<Regression, Failure>)
      requires Take(y, estimationSize) != []
      ensures r.Ok? <==> |x| == |y| || (estimationSize == 1 && |x| != 0 && (|x| == 1 || |y| == 1))
      ensures r.Err? ==> r.error == Builtin("ValueError")
      ensures r.Ok? ==>
        var coeffs := fit(Take(AddConstant(x), estimationSize), Take(y, estimationSize));
        && |r.value.residuals| == Wide(|x|, |y|) - Bound(-eventWindowSize, Wide(|x|, |y|))
        && r.value.residuals == Drop(AllResiduals(x, y, estimationSize, fit), -eventWindowSize)
        && r.value.df == estimationSize - 1
        && r.value.variance >= 0.0
        && r.value.variance == PopVariance(Take(AllResiduals(x, y, estimationSize, fit), estimationSize))
        && (r.value.reg.Some? <==> keepModel)
        && (keepModel ==> r.value.reg == Some(coeffs))
    {
      FitRows(|x|, |y|, estimationSize);
      if |Take(AddConstant(x), estimationSize)| != |Take(y, estimationSize)| then Err(Builtin("ValueError"))
      else if !(|x| == |y| || |x| == 1 || |y| == 1) then Err(Builtin("ValueError"))
      else
        var residuals := AllResiduals(x, y, estimationSize, fit);
        var variance := PopVariance(Take(residuals, estimationSize));
        var coeffs := fit(Take(AddConstant(x), estimationSize), Take(y, estimationSize));
        Ok(Regression(Drop(residuals, -eventWindowSize), estimationSize - 1, variance,
                      if keepModel then Some(coeffs) else None))
    }
  }

  /** With a non-empty estimation window, the first `est` rows and
      observations agree in number exactly when the lengths agree, or when
      there is one estimation row (and hence one row on the shorter side). */
  lemma FitRows(n: nat, m: nat, est: int)
    requires Bound(est, m) != 0
    ensures Bound(est, n) == Bound(est, m) && (n == m || n == 1 || m == 1)
        <==> n == m || (est == 1 && n != 0 && (n == 1 || m == 1))
  {
  }

  /** All residuals of a regression, estimation and event window alike,
      with a single row or observation broadcast against the other side. */
  function AllResiduals(x: seq<seq<real>>, y: seq<real>, est: int, fit: Fitter): (r: seq<real>)
    requires |x| == |y| || |x| == 1 || |y| == 1
    ensures |r| == Wide(|x|, |y|)
    ensures forall i :: 0 <= i < |r| ==>
      r[i] == At(y, i) - Dot([1.0] + At(x, i), fit(Take(AddConstant(x), est), Take(y, est)))
  {
    var design := AddConstant(x);
    var fitted := Predict(design, fit(Take(design, est), Take(y, est)));
    BroadcastSub(y, fitted).value
  }

  /** Day k of the event window: the residual of row `start + k` of the
      series, where the window starts `event_window_size` rows before the
      end (or at row 0 when the series is shorter). */
  lemma WindowResiduals(m: Model, x: seq<seq<real>>, y: seq<real>, fit: Fitter)
    requires Take(y, m.estimationSize) != []
    requires m.OLS(x, y, fit).Ok?
    ensures
      var res := m.OLS(x, y, fit).value.residuals;
      var coeffs := fit(Take(AddConstant(x), m.estimationSize), Take(y, m.estimationSize));
      var start := Bound(-m.eventWindowSize, Wide(|x|, |y|));
      forall k :: 0 <= k < |res| ==> res[k] == At(y, start + k) - Dot([1.0] + At(x, start + k), coeffs)
  {
    var all := AllResiduals(x, y, m.estimationSize, fit);
    assert m.OLS(x, y, fit).value.residuals == all[Bound(-m.eventWindowSize, |all|)..];
  }

  /** When the fitted coefficients reproduce every estimation observation,
      the residual variance is zero. */
  lemma ExactFitHasNoVariance(m: Model, x: seq<seq<real>>, y: seq<real>, fit: Fitter)
    requires |x| == |y| || (m.estimationSize == 1 && |x| != 0 && (|x| == 1 || |y| == 1))
    requires Take(y, m.estimationSize) != []
    requires forall i :: 0 <= i < |Take(AllResiduals(x, y, m.estimationSize, fit), m.estimationSize)| ==>
      AllResiduals(x, y, m.estimationSize, fit)[i] == 0.0
    ensures m.OLS(x, y, fit).Ok?
    ensures m.OLS(x, y, fit).value.variance == 0.0
  {
    var est := Take(AllResiduals(x, y, m.estimationSize, fit), m.estimationSize);
    assert |est| != 0;
    forall k | 0 <= k < |est| ensures est[k] == est[0] {
    }
    ConstantHasNoVariance(est);
  }

  /** The residuals of the constant-mean model over the whole series. */
  function Centre(security: seq<real>, est: int): (r: seq<real>)
    requires Take(security, est) != []
    ensures |r| == |security|
    ensures forall i :: 0 <= i < |security| ==> r[i] == security[i] - Mean(Take(security, est))
  {
    Shift(security, Mean(Take(security, est)))
  }

  /** `constant_mean(security_returns, ...)`: the normal return is the mean
      of the estimation returns; the variance, repeated over the window, is
      the population variance of ALL residuals (estimation and event window
      together); `estimation_size - 1` degrees of freedom; the kept model is
      the mean. */
  function ConstantMean(security: seq<real>, est: int, ews: int, keep: bool): (r: ModelOutput)
    requires Take(security, est) != []
    ensures r.residuals == Drop(Centre(security, est), -ews)
    ensures |r.variance| == (if ews < 0 then 0 else ews)
    ensures forall k :: 0 <= k < |r.variance| ==> r.variance[k] == PopVariance(security)
    ensures r.df == est - 1
    ensures r.kept == if keep then Some(KeptMean(Mean(Take(security, est)))) else None
  {
    var mean := Mean(Take(security, est));
    var residuals := Shift(security, mean);
    ShiftInvariance(security, mean);
    var variance := Repeat(PopVariance(residuals), ews);
    ModelOutput(Drop(residuals, -ews), est - 1, variance, if keep then Some(KeptMean(mean)) else None)
  }

  /** The estimation residuals of the constant-mean model sum to zero. */
  lemma ConstantMeanCentred(security: seq<real>, est: int)
    requires Take(security, est) != []
    ensures Sum(Take(Centre(security, est), est)) == 0.0
  {
    var s := Take(security, est);
    assert Take(Centre(security, est), est) == Shift(s, Mean(s));
    Centred(s);
  }

  /** A security whose return never changes has no abnormal return and no
      variance under the constant-mean model. */
  lemma ConstantReturnsAreNormal(security: seq<real>, est: int, ews: int, keep: bool)
    requires Take(security, est) != []
    requires forall i :: 0 <= i < |security| ==> security[i] == security[0]
    ensures forall k :: 0 <= k < |ConstantMean(security, est, ews, keep).residuals| ==>
      ConstantMean(security, est, ews, keep).residuals[k] == 0.0
    ensures forall k :: 0 <= k < |ConstantMean(security, est, ews, keep).variance| ==>
      ConstantMean(security, est, ews, keep).variance[k] == 0.0
  {
    var s := Take(security, est);
    ConstantHasNoVariance(s);
    ConstantHasNoVariance(security);
  }

  /** A regression on no factor at all, solved by the estimation mean (the
      least-squares intercept), leaves the residuals and degrees of freedom
      of the constant-mean model; the two differ in their variance, taken
      over the estimation window only by the regression. */
  lemma InterceptOnlyIsConstantMean(x: seq<seq<real>>, security: seq<real>, est: int, ews: int, keep: bool, fit: Fitter)
    requires |x| == |security|
    requires forall i :: 0 <= i < |x| ==> x[i] == []
    requires Take(security, est) != []
    requires fit(Take(AddConstant(x), est), Take(security, est)) == [Mean(Take(security, est))]
    ensures Model(est, ews, keep).OLS(x, security, fit).Ok?
    ensures Model(est, ews, keep).OLS(x, security, fit).value.residuals
         == ConstantMean(security, est, ews, keep).residuals
    ensures Model(est, ews, keep).OLS(x, security, fit).value.df
         == ConstantMean(security, est, ews, keep).df
  {
    var all := AllResiduals(x, security, est, fit);
    InterceptOnlyResiduals(x, security, est, fit);
    assert |Take(AddConstant(x), est)| == |Take(security, est)|;
    assert Model(est, ews, keep).OLS(x, security, fit).value.residuals == Drop(all, -ews);
  }

  /** Every residual of the intercept-only regression is a centred return. */
  lemma InterceptOnlyResiduals(x: seq<seq<real>>, security: seq<real>, est: int, fit: Fitter)
    requires |x| == |security|
    requires forall i :: 0 <= i < |x| ==> x[i] == []
    requires Take(security, est) != []
    requires fit(Take(AddConstant(x), est), Take(security, est)) == [Mean(Take(security, est))]
    ensures AllResiduals(x, security, est, fit) == Centre(security, est)
  {
    var mean := Mean(Take(security, est));
    var all := AllResiduals(x, security, est, fit);
    var centre := Centre(security, est);
    forall i | 0 <= i < |security| ensures all[i] == centre[i] {
      assert [1.0] + x[i] == [1.0];
      assert Dot([1.0], [mean]) == mean;
    }
  }

  /** `market_model(security_returns, market_returns, ...)`: regression of
      the security on the market; the OLS variance is repeated over the
      event window. */
  function MarketModel(security: seq<real>, market: seq<real>, est: int, ews: int, keep: bool, fit: Fitter): (r: Result<ModelOutput, Failure>)
    requires Take(security, est) != []
    ensures r.Ok? <==> |market| == |security| || (est == 1 && |market| != 0 && (|market| == 1 || |security| == 1))
    ensures r.Err? ==> r.error == Builtin("ValueError")
    ensures r.Ok? ==>
      var reg := Model(est, ews, keep).OLS(Column1(market), security, fit).value;
      && r.value.residuals == reg.residuals
      && r.value.df == est - 1
      && |r.value.variance| == (if ews < 0 then 0 else ews)
      && (forall k :: 0 <= k < |r.value.variance| ==> r.value.variance[k] == reg.variance)
      && (r.value.kept.Some? <==> keep)
  {
    var reg :- Model(est, ews, keep).OLS(Column1(market), security, fit);
    Ok(ModelOutput(reg.residuals, reg.df, Repeat(reg.variance, ews),
                   if reg.reg.Some? then Some(KeptRegression(reg.reg.value)) else None))
  }

  /** A one-dimensional regressor as one-column rows. */
  function Column1(v: seq<real>): (rows: seq<seq<real>>)
    ensures |rows| == |v|
    ensures forall i :: 0 <= i < |v| ==> rows[i] == [v[i]]
  {
    seq(|v|, i requires 0 <= i < |v| => [v[i]])
  }

  /** The coefficients the solver returns for the excess returns on the
      stacked factors. */
  function FactorCoefficients(security: seq<real>, factors: seq<seq<real>>, rf: seq<real>, est: int, fit: Fitter): seq<real>
    requires factors != []
    requires ColumnStack(factors).Ok? && BroadcastSub(security, rf).Ok?
  {
    fit(Take(AddConstant(ColumnStack(factors).value), est), Take(BroadcastSub(security, rf).value, est))
  }

  /** The Fama-French models: excess returns `security - RF` regressed on an
      intercept and the factor columns, in the order given; the OLS variance
      is repeated over the event window. */
  function FactorModel(security: seq<real>, factors: seq<seq<real>>, rf: seq<real>,
                       est: int, ews: int, keep: bool, fit: Fitter): (r: Result<ModelOutput, Failure>)
    requires factors != []
    requires BroadcastSub(security, rf).Ok? ==> Take(BroadcastSub(security, rf).value, est) != []
    ensures r.Ok? <==>
      && ColumnStack(factors).Ok?
      && BroadcastSub(security, rf).Ok?
      && var m := |BroadcastSub(security, rf).value|;
         m == |factors[0]| || (est == 1 && |factors[0]| != 0 && (|factors[0]| == 1 || m == 1))
    ensures r.Err? ==> r.error == Builtin("ValueError")
    ensures r.Ok? ==>
      var reg := Model(est, ews, keep).OLS(ColumnStack(factors).value, BroadcastSub(security, rf).value, fit).value;
      && r.value.residuals == reg.residuals
      && r.value.df == est - 1
      && |r.value.variance| == (if ews < 0 then 0 else ews)
      && (forall k :: 0 <= k < |r.value.variance| ==> r.value.variance[k] == reg.variance)
      && (r.value.kept.Some? <==> keep)
  {
    var xs := ColumnStack(factors);
    var ys := BroadcastSub(security, rf);
    if xs.Err? || ys.Err? then Err(Builtin("ValueError"))
    else
      var reg :- Model(est, ews, keep).OLS(xs.value, ys.value, fit);
      Repeated(reg, ews)
  }

  /** A regression's output with its variance repeated over the event window. */
  function Repeated(reg: Regression, ews: int): (r: Result<ModelOutput, Failure>)
    ensures r.Ok?
    ensures r.value.residuals == reg.residuals && r.value.df == reg.df
    ensures |r.value.variance| == (if ews < 0 then 0 else ews)
    ensures forall k :: 0 <= k < |r.value.variance| ==> r.value.variance[k] == reg.variance
    ensures r.value.kept.Some? <==> reg.reg.Some?
  {
    Ok(ModelOutput(reg.residuals, reg.df, Repeat(reg.variance, ews),
                   if reg.reg.Some? then Some(KeptRegression(reg.reg.value)) else None))
  }

  /** The residuals of a factor model are those of the regression of the
      excess returns on the stacked factors, over the last `ews` rows. */
  lemma FactorResiduals(security: seq<real>, factors: seq<seq<real>>, rf: seq<real>,
                        est: int, ews: int, keep: bool, fit: Fitter)
    requires factors != []
    requires BroadcastSub(security, rf).Ok? ==> Take(BroadcastSub(security, rf).value, est) != []
    requires FactorModel(security, factors, rf, est, ews, keep, fit).Ok?
    ensures
      var y := BroadcastSub(security, rf).value;
      var x := ColumnStack(factors).value;
      && (|x| == |y| || |x| == 1 || |y| == 1)
      && FactorModel(security, factors, rf, est, ews, keep, fit).value.residuals
         == Drop(AllResiduals(x, y, est, fit), -ews)
  {
    var x := ColumnStack(factors).value;
    var y := BroadcastSub(security, rf).value;
    assert |x| == |factors[0]|;
    assert Model(est, ews, keep).OLS(x, y, fit).Ok?;
  }

  /** Stacking three columns succeeds exactly when they are equally long,
      and row i is then their i-th entries in order. */
  lemma Stack3(a: seq<real>, b: seq<real>, c: seq<real>)
    ensures ColumnStack([a, b, c]).Ok? <==> |b| == |a| && |c| == |a|
    ensures ColumnStack([a, b, c]).Ok? ==>
      forall i :: 0 <= i < |a| ==> [1.0] + ColumnStack([a, b, c]).value[i] == [1.0, a[i], b[i], c[i]]
  {
    var cols := [a, b, c];
    if |b| == |a| && |c| == |a| {
      forall i | 0 <= i < |a| ensures ColumnStack(cols).value[i] == [a[i], b[i], c[i]] {
        assert FactorRow(cols, i) == [a[i], b[i], c[i]];
      }
    } else {
      assert |cols[1]| != |cols[0]| || |cols[2]| != |cols[0]|;
    }
  }

  /** The same for the five Fama-French factor columns. */
  lemma Stack5(a: seq<real>, b: seq<real>, c: seq<real>, d: seq<real>, e: seq<real>)
    ensures ColumnStack([a, b, c, d, e]).Ok? <==> |b| == |a| && |c| == |a| && |d| == |a| && |e| == |a|
    ensures ColumnStack([a, b, c, d, e]).Ok? ==>
      forall i :: 0 <= i < |a| ==> [1.0] + ColumnStack([a, b, c, d, e]).value[i] == [1.0, a[i], b[i], c[i], d[i], e[i]]
  {
    var cols := [a, b, c, d, e];
    if |b| == |a| && |c| == |a| && |d| == |a| && |e| == |a| {
      forall i | 0 <= i < |a| ensures ColumnStack(cols).value[i] == [a[i], b[i], c[i], d[i], e[i]] {
        assert FactorRow(cols, i) == [a[i], b[i], c[i], d[i], e[i]];
      }
    } else {
      assert |cols[1]| != |cols[0]| || |cols[2]| != |cols[0]| || |cols[3]| != |cols[0]| || |cols[4]| != |cols[0]|;
    }
  }

  /** `FamaFrench_3factor(security_returns, Mkt_RF, SMB, HML, RF, ...)`: the
      regressors of day i are, in this order, the intercept, Mkt_RF, SMB and
      HML. */
  function FamaFrench3(security: seq<real>, mktRf: seq<real>, smb: seq<real>, hml: seq<real>, rf: seq<real>,
                       est: int, ews: int, keep: bool, fit: Fitter): (r: Result<ModelOutput, Failure>)
    requires BroadcastSub(security, rf).Ok? ==> Take(BroadcastSub(security, rf).value, est) != []
    ensures r.Ok? <==>
      && |smb| == |mktRf| && |hml| == |mktRf|
      && BroadcastSub(security, rf).Ok?
      && var m := |BroadcastSub(security, rf).value|;
         m == |mktRf| || (est == 1 && |mktRf| != 0 && (|mktRf| == 1 || m == 1))
    ensures r.Err? ==> r.error == Builtin("ValueError")
    ensures r.Ok? ==>
      var y := BroadcastSub(security, rf).value;
      var start := Bound(-ews, Wide(|mktRf|, |y|));
      var coeffs := FactorCoefficients(security, [mktRf, smb, hml], rf, est, fit);
      && |r.value.residuals| == Wide(|mktRf|, |y|) - start
      && (forall k :: 0 <= k < |r.value.residuals| ==>
            var j := start + k;
            r.value.residuals[k] == At(y, j) - Dot([1.0, At(mktRf, j), At(smb, j), At(hml, j)], coeffs))
  {
    Stack3(mktRf, smb, hml);
    var r := FactorModel(security, [mktRf, smb, hml], rf, est, ews, keep, fit);
    if r.Ok? then FamaFrench3Residuals(security, mktRf, smb, hml, rf, est, ews, keep, fit); r else r
  }

  /** The event-window residuals of the three-factor model, day by day. */
  lemma FamaFrench3Residuals(security: seq<real>, mktRf: seq<real>, smb: seq<real>, hml: seq<real>, rf: seq<real>,
                             est: int, ews: int, keep: bool, fit: Fitter)
    requires BroadcastSub(security, rf).Ok? ==> Take(BroadcastSub(security, rf).value, est) != []
    requires FactorModel(security, [mktRf, smb, hml], rf, est, ews, keep, fit).Ok?
    ensures |smb| == |mktRf| && |hml| == |mktRf|
    ensures
      var r := FactorModel(security, [mktRf, smb, hml], rf, est, ews, keep, fit).value;
      var y := BroadcastSub(security, rf).value;
      var start := Bound(-ews, Wide(|mktRf|, |y|));
      var coeffs := FactorCoefficients(security, [mktRf, smb, hml], rf, est, fit);
      && |r.residuals| == Wide(|mktRf|, |y|) - start
      && (forall k :: 0 <= k < |r.residuals| ==>
            var j := start + k;
            r.residuals[k] == At(y, j) - Dot([1.0, At(mktRf, j), At(smb, j), At(hml, j)], coeffs))
  {
    Stack3(mktRf, smb, hml);
    FactorResiduals(security, [mktRf, smb, hml], rf, est, ews, keep, fit);
    var x := ColumnStack([mktRf, smb, hml]).value;
    var y := BroadcastSub(security, rf).value;
    var all := AllResiduals(x, y, est, fit);
    var coeffs := FactorCoefficients(security, [mktRf, smb, hml], rf, est, fit);
    var start := Bound(-ews, Wide(|mktRf|, |y|));
    assert Drop(all, -ews) == all[start..];
    StackedRows3(all, x, y, mktRf, smb, hml, coeffs);
  }

  /** Residuals on the stacked three factors, row by row, name the factor
      values of that row. */
  lemma StackedRows3(all: seq<real>, x: seq<seq<real>>, y: seq<real>,
                     a: seq<real>, b: seq<real>, c: seq<real>, coeffs: seq<real>)
    requires |x| == |a| && |b| == |a| && |c| == |a|
    requires forall i :: 0 <= i < |x| ==> [1.0] + x[i] == [1.0, a[i], b[i], c[i]]
    requires |x| == |y| || |x| == 1 || |y| == 1
    requires |all| == Wide(|x|, |y|)
    requires forall i :: 0 <= i < |all| ==> all[i] == At(y, i) - Dot([1.0] + At(x, i), coeffs)
    ensures forall i :: 0 <= i < |all| ==>
      all[i] == At(y, i) - Dot([1.0, At(a, i), At(b, i), At(c, i)], coeffs)
  {
    forall i | 0 <= i < |all|
      ensures all[i] == At(y, i) - Dot([1.0, At(a, i), At(b, i), At(c, i)], coeffs)
    {
      assert [1.0] + At(x, i) == [1.0, At(a, i), At(b, i), At(c, i)];
    }
  }

  /** `FamaFrench_5factor(security_returns, Mkt_RF, SMB, HML, RMW, CMA, RF,
      ...)`: as the three-factor model, with RMW and CMA as the fourth and
      fifth factors. */
  function FamaFrench5(security: seq<real>, mktRf: seq<real>, smb: seq<real>, hml: seq<real>,
                       rmw: seq<real>, cma: seq<real>, rf: seq<real>,
                       est: int, ews: int, keep: bool, fit: Fitter): (r: Result<ModelOutput, Failure>)
    requires BroadcastSub(security, rf).Ok? ==> Take(BroadcastSub(security, rf).value, est) != []
    ensures r.Ok? <==>
      && |smb| == |mktRf| && |hml| == |mktRf| && |rmw| == |mktRf| && |cma| == |mktRf|
      && BroadcastSub(security, rf).Ok?
      && var m := |BroadcastSub(security, rf).value|;
         m == |mktRf| || (est == 1 && |mktRf| != 0 && (|mktRf| == 1 || m == 1))
    ensures r.Err? ==> r.error == Builtin("ValueError")
    ensures r.Ok? ==>
      var y := BroadcastSub(security, rf).value;
      var start := Bound(-ews, Wide(|mktRf|, |y|));
      var coeffs := FactorCoefficients(security, [mktRf, smb, hml, rmw, cma], rf, est, fit);
      && |r.value.residuals| == Wide(|mktRf|, |y|) - start
      && (forall k :: 0 <= k < |r.value.residuals| ==>
            var j := start + k;
            r.value.residuals[k] == At(y, j)
              - Dot([1.0, At(mktRf, j), At(smb, j), At(hml, j), At(rmw, j), At(cma, j)], coeffs))
  {
    Stack5(mktRf, smb, hml, rmw, cma);
    var r := FactorModel(security, [mktRf, smb, hml, rmw, cma], rf, est, ews, keep, fit);
    if r.Ok? then FamaFrench5Residuals(security, mktRf, smb, hml, rmw, cma, rf, est, ews, keep, fit); r else r
  }

  /** The event-window residuals of the five-factor model, day by day. */
  lemma FamaFrench5Residuals(security: seq<real>, mktRf: seq<real>, smb: seq<real>, hml: seq<real>,
                             rmw: seq<real>, cma: seq<real>, rf: seq<real>,
                             est: int, ews: int, keep: bool, fit: Fitter)
    requires BroadcastSub(security, rf).Ok? ==> Take(BroadcastSub(security, rf).value, est) != []
    requires FactorModel(security, [mktRf, smb, hml, rmw, cma], rf, est, ews, keep, fit).Ok?
    ensures |smb| == |mktRf| && |hml| == |mktRf| && |rmw| == |mktRf| && |cma| == |mktRf|
    ensures
      var r := FactorModel(security, [mktRf, smb, hml, rmw, cma], rf, est, ews, keep, fit).value;
      var y := BroadcastSub(security, rf).value;
      var start := Bound(-ews, Wide(|mktRf|, |y|));
      var coeffs := FactorCoefficients(security, [mktRf, smb, hml, rmw, cma], rf, est, fit);
      && |r.residuals| == Wide(|mktRf|, |y|) - start
      && (forall k :: 0 <= k < |r.residuals| ==>
            var j := start + k;
            r.residuals[k] == At(y, j)
              - Dot([1.0, At(mktRf, j), At(smb, j), At(hml, j), At(rmw, j), At(cma, j)], coeffs))
  {
    Stack5(mktRf, smb, hml, rmw, cma);
    FactorResiduals(security, [mktRf, smb, hml, rmw, cma], rf, est, ews, keep, fit);
    var x := ColumnStack([mktRf, smb, hml, rmw, cma]).value;
    var y := BroadcastSub(security, rf).value;
    var all := AllResiduals(x, y, est, fit);
    var coeffs := FactorCoefficients(security, [mktRf, smb, hml, rmw, cma], rf, est, fit);
    var start := Bound(-ews, Wide(|mktRf|, |y|));
    assert Drop(all, -ews) == all[start..];
    StackedRows5(all, x, y, mktRf, smb, hml, rmw, cma, coeffs);
  }

  /** The same for the stacked five factors. */
  lemma StackedRows5(all: seq<real>, x: seq<seq<real>>, y: seq<real>,
                     a: seq<real>, b: seq<real>, c: seq<real>, d: seq<real>, e: seq<real>, coeffs: seq<real>)
    requires |x| == |a| && |b| == |a| && |c| == |a| && |d| == |a| && |e| == |a|
    requires forall i :: 0 <= i < |x| ==> [1.0] + x[i] == [1.0, a[i], b[i], c[i], d[i], e[i]]
    requires |x| == |y| || |x| == 1 || |y| == 1
    requires |all| == Wide(|x|, |y|)
    requires forall i :: 0 <= i < |all| ==> all[i] == At(y, i) - Dot([1.0] + At(x, i), coeffs)
    ensures forall i :: 0 <= i < |all| ==>
      all[i] == At(y, i) - Dot([1.0, At(a, i), At(b, i), At(c, i), At(d, i), At(e, i)], coeffs)
  {
    forall i | 0 <= i < |all|
      ensures all[i] == At(y, i) - Dot([1.0, At(a, i), At(b, i), At(c, i), At(d, i), At(e, i)], coeffs)
    {
      assert [1.0] + At(x, i) == [1.0, At(a, i), At(b, i), At(c, i), At(d, i), At(e, i)];
    }
  }
}
