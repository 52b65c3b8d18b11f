/** The TDRS three-legged return Doppler adapter. Four range adapters
    measure the End and Start legs of the spacecraft path (user spacecraft,
    TDRS, ground station) and of the ground-station path (a pilot signal
    from a second station through the TDRS). The adapter combines their
    ranges, through signed multipliers built from the node-4 frequency and
    the pilot frequency, into a Doppler count in Hz. */
module TDRS3LReturnDopplerModel {
  import opened Common
  import opened TdrsServiceAccess
  import R = BRTSRangeAdapterModel
  import D = BRTSDopplerAdapterModel

  const ReturnType := "SN_Doppler_Rtn"

  /** The messages of an End-GroundStation, Start-Spacecraft and
      Start-GroundStation derivative table whose width differs from the
      End-Spacecraft table's. */
  const ReturnSizeErrors := D.SizeErrors(
    "Derivative data size for End-GroundStation path is a different size than expected",
    "Derivative data size for Start-Spacecraft path is a different size than expected",
    "Derivative data size for Start-GroundStation path is a different size than expected")

  // ---------------------------------------------------------------------
  // The Doppler value of one path
  // ---------------------------------------------------------------------
  // The four paths map onto the BRTS Doppler combination: End-Spacecraft
  // (ESC) is the End-Long path, End-GroundStation (EGS) End-Short,
  // Start-Spacecraft (SSC) Start-Long and Start-GroundStation (SGS)
  // Start-Short.

  /** The Doppler count of ranges esc, egs, ssc and sgs (km, each times its
      factor) for a node-4 frequency eff and a pilot frequency (MHz) over a
      count interval dt (s). */
  function ValueAt(eff: real, pilot: real, dt: real, f: D.Factors, esc: real, egs: real, ssc: real, sgs: real): real
    requires dt != 0.0 && D.NonZero(f)
  {
    D.Combine(D.DopplerMultipliers(eff, pilot, dt).value, f, esc, egs, ssc, sgs)
  }

  /** The range-rate ratio of a path pair: minus its range change from End
      to Start over the count interval and the speed of light. */
  function RangeRateRatio(dt: real, fEnd: real, fStart: real, endRange: real, startRange: real): real
    requires dt != 0.0 && fEnd != 0.0 && fStart != 0.0
  {
    (-1.0 / (dt * D.SpeedOfLightKm)) * (endRange / fEnd - startRange / fStart)
  }

  /** The Doppler count is the node-4 frequency times the spacecraft path's
      range-rate ratio plus the pilot frequency times the ground-station
      path's, both in Hz. */
  lemma ValueFromRangeRates(eff: real, pilot: real, dt: real, f: D.Factors, esc: real, egs: real, ssc: real, sgs: real)
    requires dt != 0.0 && D.NonZero(f)
    ensures ValueAt(eff, pilot, dt, f, esc, egs, ssc, sgs)
         == eff * D.MHz * RangeRateRatio(dt, f.el, f.sl, esc, ssc) + pilot * D.MHz * RangeRateRatio(dt, f.es, f.ss, egs, sgs)
  {
    var d := dt * D.SpeedOfLightKm;
    var x := ssc / f.sl - esc / f.el;
    var y := sgs / f.ss - egs / f.es;
    D.CombineIsRangeChange(eff, pilot, dt, f, esc, egs, ssc, sgs);
    assert RangeRateRatio(dt, f.el, f.sl, esc, ssc) == x / d;
    assert RangeRateRatio(dt, f.es, f.ss, egs, sgs) == y / d;
    D.SumOverDivisor(x, y, d, eff * D.MHz, pilot * D.MHz);
  }

  /** The rate at which the Doppler count changes with an oscillator
      parameter: the mixer factor a times the derivative dOsc of the
      oscillator frequency, times the change of the count per Hz of
      effective frequency, the pilot following at rate dBdA. */
  function OscillatorRate(a: real, dOsc: real, rrSC: real, rrGS: real, dBdA: real): real
  {
    a * dOsc * (rrSC + dBdA * rrGS)
  }

  /** The oscillator partial is the chain rule, exactly: moving the
      oscillator parameter by h moves the effective frequency by
      a * dOsc * h Hz and the pilot by dBdA times that, and the Doppler
      count by h times OscillatorRate. */
  lemma OscillatorRateIsChainRule(a: real, dOsc: real, h: real, dBdA: real, eff: real, pilot: real,
                                  dt: real, f: D.Factors, esc: real, egs: real, ssc: real, sgs: real)
    requires dt != 0.0 && D.NonZero(f)
    ensures var dEff := a * dOsc * h / D.MHz;
      ValueAt(eff + dEff, pilot + dBdA * dEff, dt, f, esc, egs, ssc, sgs) - ValueAt(eff, pilot, dt, f, esc, egs, ssc, sgs)
        == h * OscillatorRate(a, dOsc, RangeRateRatio(dt, f.el, f.sl, esc, ssc), RangeRateRatio(dt, f.es, f.ss, egs, sgs), dBdA)
  {
    var dEff := a * dOsc * h / D.MHz;
    var sc := RangeRateRatio(dt, f.el, f.sl, esc, ssc);
    var gs := RangeRateRatio(dt, f.es, f.ss, egs, sgs);
    ValueFromRangeRates(eff + dEff, pilot + dBdA * dEff, dt, f, esc, egs, ssc, sgs);
    ValueFromRangeRates(eff, pilot, dt, f, esc, egs, ssc, sgs);
    assert dEff * D.MHz == a * dOsc * h;
    calc {
      (eff + dEff) * D.MHz * sc + (pilot + dBdA * dEff) * D.MHz * gs - (eff * D.MHz * sc + pilot * D.MHz * gs);
      dEff * D.MHz * sc + dBdA * (dEff * D.MHz) * gs;
      (a * dOsc * h) * sc + dBdA * (a * dOsc * h) * gs;
      h * OscillatorRate(a, dOsc, sc, gs, dBdA);
    }
  }

  // ---------------------------------------------------------------------
  // Feasibility
  // ---------------------------------------------------------------------

  /** The feasibility of the return Doppler measurement: that of the first
      infeasible path in the order ESC, EGS, SSC, SGS, or feasible with
      reason "N" and ESC's feasibility value. */
  function ReturnFeasibility(esc: R.MeasurementData, egs: R.MeasurementData, ssc: R.MeasurementData, sgs: R.MeasurementData)
    : (r: R.Feasibility)
    ensures r.isFeasible <==> esc.isFeasible && egs.isFeasible && ssc.isFeasible && sgs.isFeasible
    ensures r.isFeasible ==> r.reason == "N" && r.value == esc.feasibilityValue
  {
    if !esc.isFeasible then D.FeasibilityOf(esc)
    else if !egs.isFeasible then D.FeasibilityOf(egs)
    else if !ssc.isFeasible then D.FeasibilityOf(ssc)
    else if !sgs.isFeasible then D.FeasibilityOf(sgs)
    else R.Feasibility(true, "N", esc.feasibilityValue)
  }

  /** The precedence is a first-match scan of ESC, EGS, SSC, SGS over the
      default "feasible, N". */
  lemma ReturnFeasibilityIsFirstInfeasible(esc: R.MeasurementData, egs: R.MeasurementData,
                                           ssc: R.MeasurementData, sgs: R.MeasurementData)
    ensures ReturnFeasibility(esc, egs, ssc, sgs)
         == D.FirstInfeasible([esc, egs, ssc, sgs], R.Feasibility(true, "N", esc.feasibilityValue))
  {
    var fb := R.Feasibility(true, "N", esc.feasibilityValue);
    assert [sgs][1..] == [];
    assert D.FirstInfeasible([sgs], fb) == if !sgs.isFeasible then D.FeasibilityOf(sgs) else fb;
    assert [ssc, sgs][1..] == [sgs];
    assert D.FirstInfeasible([ssc, sgs], fb) == if !ssc.isFeasible then D.FeasibilityOf(ssc) else D.FirstInfeasible([sgs], fb);
    assert [egs, ssc, sgs][1..] == [ssc, sgs];
    assert D.FirstInfeasible([egs, ssc, sgs], fb) == if !egs.isFeasible then D.FeasibilityOf(egs) else D.FirstInfeasible([ssc, sgs], fb);
    assert [esc, egs, ssc, sgs][1..] == [egs, ssc, sgs];
  }

  // ---------------------------------------------------------------------
  // The configuration
  // ---------------------------------------------------------------------

  /** The settings for a measurement: an observation sets the count
      interval, the single service access, the data flag and the SMA
      receiver id, but not the node-4 frequency or band; a simulation
      draws a service access from the adapter's list. */
  function Configured(cfg: D.TdrsConfig, obs: Option<D.TdrsObservation>, draw: nat): (r: Result<D.TdrsConfig>)
    ensures r.Ok? <==> obs.Some? || |cfg.serviceAccessList| > 0
    ensures r.Err? ==> r.msg == D.EmptySimulationListError
    ensures r.Ok? ==> D.ValidIndex(r.value)
    ensures r.Ok? ==> r.value.node4Freq == cfg.node4Freq && r.value.node4FreqBand == cfg.node4FreqBand
    ensures obs.Some? ==> (r.value.serviceAccessList == [obs.value.serviceId]
                           && r.value.dopplerCountInterval == obs.value.dopplerCountInterval
                           && r.value.dataFlag == obs.value.dataFlag && r.value.smarId == obs.value.smarId)
    ensures obs.None? && r.Ok? ==> r.value.(serviceAccessIndex := cfg.serviceAccessIndex) == cfg
  {
    match obs
    case Some(o) =>
      Ok(cfg.(serviceAccessList := [o.serviceId], serviceAccessIndex := 0, dopplerCountInterval := o.dopplerCountInterval,
              dataFlag := o.dataFlag, smarId := o.smarId))
    case None =>
      if |cfg.serviceAccessList| == 0 then Err(D.EmptySimulationListError)
      else Ok(cfg.(serviceAccessIndex := draw % |cfg.serviceAccessList|))
  }

  /** The rule differs from the BRTS Doppler one only in keeping the
      adapter's node-4 frequency and band. */
  lemma {:induction false} ConfiguredKeepsNode4(cfg: D.TdrsConfig, obs: Option<D.TdrsObservation>, draw: nat)
    ensures Configured(cfg, obs, draw).Ok? <==> D.Configured(cfg, obs, draw).Ok?
    ensures Configured(cfg, obs, draw).Ok? ==>
      Configured(cfg, obs, draw).value
        == D.Configured(cfg, obs, draw).value.(node4Freq := cfg.node4Freq, node4FreqBand := cfg.node4FreqBand)
  {
    match obs {
      case Some(o) =>
        var r := Configured(cfg, obs, draw).value;
        var b := D.Configured(cfg, obs, draw).value;
        assert r.serviceAccessList == b.serviceAccessList && r.serviceAccessIndex == b.serviceAccessIndex;
        assert r.dopplerCountInterval == b.dopplerCountInterval && r.smarId == b.smarId && r.dataFlag == b.dataFlag;
      case None =>
    }
  }

  // ---------------------------------------------------------------------
  // The walk over the signal paths
  // ---------------------------------------------------------------------

  /** What the measurement reads besides the End-Spacecraft record: the
      End-GroundStation, Start-Spacecraft and Start-GroundStation records,
      the four multiplier factors, the transmit frequency (MHz) and band of
      the End-Spacecraft path, for each path the pilot frequency (MHz) and
      its derivative with respect to the node-4 frequency and one noise
      draw, and the pass bias. */
  datatype ReturnInputs = ReturnInputs(
    egs: R.MeasurementData,
    ssc: R.MeasurementData,
    sgs: R.MeasurementData,
    factors: D.Factors,
    node4Freq: real,
    node4Band: int,
    pilot: seq<real>,
    dBdA: seq<real>,
    noise: seq<real>,
    passBias: real)

  datatype ReturnContext = ReturnContext(
    cfg: D.TdrsConfig,
    measurementType: string,
    settings: R.ErrorSettings,
    biases: seq<real>,
    esc: R.MeasurementData,
    inp: ReturnInputs)

  function PathCount(ctx: ReturnContext): nat { |ctx.inp.pilot| }

  /** The divisions of the multipliers and ratios are defined. */
  predicate Divisible(ctx: ReturnContext)
  {
    ctx.cfg.dopplerCountInterval != 0.0 && D.NonZero(ctx.inp.factors)
  }

  /** The inputs agree on the number of paths, and with a path the
      divisions are defined. */
  predicate Fits(ctx: ReturnContext)
  {
    var n := PathCount(ctx);
    && D.ValidIndex(ctx.cfg)
    && |ctx.esc.value| >= n && |ctx.esc.correction| >= n
    && |ctx.inp.egs.value| >= n && |ctx.inp.egs.correction| >= n
    && |ctx.inp.ssc.value| >= n && |ctx.inp.ssc.correction| >= n
    && |ctx.inp.sgs.value| >= n && |ctx.inp.sgs.correction| >= n
    && |ctx.inp.dBdA| == n && |ctx.inp.noise| == n
    && D.BiasesCover(ctx.measurementType == ReturnType, ctx.settings, ctx.biases, n)
    && (n > 0 ==> Divisible(ctx))
  }

  /** The multipliers of path i: the spacecraft paths scale by the node-4
      frequency, the ground-station paths by the path's pilot frequency,
      Start positive and End negative. */
  function PathMultipliers(ctx: ReturnContext, i: nat): (m: D.Multipliers)
    requires Fits(ctx) && i < PathCount(ctx)
    ensures m.el == -m.sl && m.es == -m.ss
    ensures m.sl * (ctx.cfg.dopplerCountInterval * D.SpeedOfLightKm) == ctx.cfg.node4Freq * D.MHz
    ensures m.ss * (ctx.cfg.dopplerCountInterval * D.SpeedOfLightKm) == ctx.inp.pilot[i] * D.MHz
  {
    D.DopplerMultipliers(ctx.cfg.node4Freq, ctx.inp.pilot[i], ctx.cfg.dopplerCountInterval).value
  }

  /** The values or (ofCorrection) the corrections of a record. */
  function Entries(m: R.MeasurementData, ofCorrection: bool): seq<real>
  {
    if ofCorrection then m.correction else m.value
  }

  /** The Doppler value (or correction) of path i before noise and bias. */
  function PathSum(ctx: ReturnContext, i: nat, ofCorrection: bool): real
    requires Fits(ctx) && i < PathCount(ctx)
  {
    ValueAt(ctx.cfg.node4Freq, ctx.inp.pilot[i], ctx.cfg.dopplerCountInterval, ctx.inp.factors,
            Entries(ctx.esc, ofCorrection)[i], Entries(ctx.inp.egs, ofCorrection)[i],
            Entries(ctx.inp.ssc, ofCorrection)[i], Entries(ctx.inp.sgs, ofCorrection)[i])
  }

  function Feasibility(ctx: ReturnContext): R.Feasibility
  {
    ReturnFeasibility(ctx.esc, ctx.inp.egs, ctx.inp.ssc, ctx.inp.sgs)
  }

  /** The Doppler value (or correction) of path i with noise and bias. */
  function PathEntry(ctx: ReturnContext, i: nat, ofCorrection: bool): real
    requires Fits(ctx) && i < PathCount(ctx)
  {
    D.DopplerApplied(ctx.measurementType == ReturnType, ctx.settings, Feasibility(ctx).reason, PathSum(ctx, i, ofCorrection),
                     ctx.inp.noise[i], R.BiasAt(ctx.settings, ctx.inp.passBias, ctx.biases, i))
  }

  /** The entries of the first k paths, in path order. */
  function PathEntries(ctx: ReturnContext, k: nat, ofCorrection: bool): (r: seq<real>)
    requires Fits(ctx) && k <= PathCount(ctx)
    ensures |r| == k
    ensures forall i :: 0 <= i < k ==> r[i] == PathEntry(ctx, i, ofCorrection)
  {
    if k == 0 then [] else PathEntries(ctx, k - 1, ofCorrection) + [PathEntry(ctx, k - 1, ofCorrection)]
  }

  /** The spacecraft path's range-rate ratio at path i. */
  function RangeRateSC(ctx: ReturnContext, i: nat): real
    requires Fits(ctx) && i < PathCount(ctx)
  {
    RangeRateRatio(ctx.cfg.dopplerCountInterval, ctx.inp.factors.el, ctx.inp.factors.sl, ctx.esc.value[i], ctx.inp.ssc.value[i])
  }

  /** The ground-station path's range-rate ratio at path i. */
  function RangeRateGS(ctx: ReturnContext, i: nat): real
    requires Fits(ctx) && i < PathCount(ctx)
  {
    RangeRateRatio(ctx.cfg.dopplerCountInterval, ctx.inp.factors.es, ctx.inp.factors.ss, ctx.inp.egs.value[i], ctx.inp.sgs.value[i])
  }

  /** The state the walk updates: the record, and the multipliers,
      range-rate ratios and pilot derivative of the last path, which the
      derivatives read. */
  datatype ReturnState = ReturnState(d: D.DopplerData, mult: D.Multipliers, rrSC: real, rrGS: real, dBdA: real)

  /** The state after the first k paths from a state st0 whose record
      holds no entries yet: with a path done, the record holds the paths'
      entries, the measurement's feasibility, the TDRS fields and the count
      interval, and the rest is the last path's. */
  function StateAfter(ctx: ReturnContext, st0: ReturnState, k: nat): (st: ReturnState)
    requires Fits(ctx) && k <= PathCount(ctx)
  {
    if k == 0 then st0
    else
      var last := k - 1;
      var m := D.WithFeasibility(st0.d.base, Feasibility(ctx)).(
        value := PathEntries(ctx, k, false), correction := PathEntries(ctx, k, true));
      ReturnState(D.Tagged(st0.d, ctx.cfg).(base := m, countInterval := ctx.cfg.dopplerCountInterval),
                  PathMultipliers(ctx, last), RangeRateSC(ctx, last), RangeRateGS(ctx, last), ctx.inp.dBdA[last])
  }

  /** Walks the signal paths in order, appending each path's value and
      correction to the record. */
  method PushPaths(ctx: ReturnContext, st0: ReturnState) returns (st: ReturnState)
    requires Fits(ctx) && st0.d.base.value == [] && st0.d.base.correction == []
    ensures st == StateAfter(ctx, st0, PathCount(ctx))
  {
    st := st0;
    var i := 0;
    while i < PathCount(ctx)
      invariant 0 <= i <= PathCount(ctx)
      invariant st == StateAfter(ctx, st0, i)
      invariant st.d.base.value == PathEntries(ctx, i, false) && st.d.base.correction == PathEntries(ctx, i, true)
    {
      var mult := PathMultipliers(ctx, i);
      var m := D.WithFeasibility(st.d.base, Feasibility(ctx)).(
        value := st.d.base.value + [PathEntry(ctx, i, false)],
        correction := st.d.base.correction + [PathEntry(ctx, i, true)]);
      st := ReturnState(D.Tagged(st.d, ctx.cfg).(base := m, countInterval := ctx.cfg.dopplerCountInterval),
                        mult, RangeRateSC(ctx, i), RangeRateGS(ctx, i), ctx.inp.dBdA[i]);
      i := i + 1;
    }
  }

  /** After the walk, every path's entry is its Doppler count with noise
      and bias, which go into value and correction alike; without them
      (another measurement type, or range only) the value is the node-4
      frequency times the spacecraft ratio plus the pilot times the
      ground-station ratio. With a path done, the feasibility is the
      measurement's and the ratios are the last path's. */
  lemma WalkMeaning(ctx: ReturnContext, st0: ReturnState)
    requires Fits(ctx)
    ensures var m := StateAfter(ctx, st0, PathCount(ctx)).d.base;
      PathCount(ctx) > 0 ==>
        && |m.value| == PathCount(ctx) && |m.correction| == PathCount(ctx)
        && D.FeasibilityOf(m) == Feasibility(ctx)
        && forall i :: 0 <= i < PathCount(ctx) ==>
             && m.value[i] - m.correction[i] == PathSum(ctx, i, false) - PathSum(ctx, i, true)
             && (ctx.measurementType != ReturnType || ctx.settings.rangeOnly ==>
                   m.value[i] == ctx.cfg.node4Freq * D.MHz * RangeRateSC(ctx, i) + ctx.inp.pilot[i] * D.MHz * RangeRateGS(ctx, i))
  {
    var n := PathCount(ctx);
    if n > 0 {
      var m := StateAfter(ctx, st0, n).d.base;
      forall i | 0 <= i < n
        ensures m.value[i] - m.correction[i] == PathSum(ctx, i, false) - PathSum(ctx, i, true)
        ensures ctx.measurementType != ReturnType || ctx.settings.rangeOnly ==>
                  m.value[i] == ctx.cfg.node4Freq * D.MHz * RangeRateSC(ctx, i) + ctx.inp.pilot[i] * D.MHz * RangeRateGS(ctx, i)
      {
        var reason := Feasibility(ctx).reason;
        var noise := ctx.inp.noise[i];
        var bias := R.BiasAt(ctx.settings, ctx.inp.passBias, ctx.biases, i);
        D.DopplerAppliedKeepsDifference(ctx.measurementType == ReturnType, ctx.settings, reason,
                                        PathSum(ctx, i, false), PathSum(ctx, i, true), noise, bias);
        ValueFromRangeRates(ctx.cfg.node4Freq, ctx.inp.pilot[i], ctx.cfg.dopplerCountInterval, ctx.inp.factors,
                            ctx.esc.value[i], ctx.inp.egs.value[i], ctx.inp.ssc.value[i], ctx.inp.sgs.value[i]);
      }
    }
  }

  // ---------------------------------------------------------------------
  // Derivatives
  // ---------------------------------------------------------------------

  /** The derivative row of the frequency polynomial coefficients: the
      oscillator rate of each coefficient's frequency derivative. */
  method PolynomialRow(a: real, dOsc: seq<real>, rrSC: real, rrGS: real, dBdA: real) returns (row: seq<real>)
    ensures |row| == |dOsc|
    ensures forall k :: 0 <= k < |dOsc| ==> row[k] == OscillatorRate(a, dOsc[k], rrSC, rrGS, dBdA)
  {
    row := [];
    var k := 0;
    while k < |dOsc|
      invariant 0 <= k <= |dOsc|
      invariant |row| == k
      invariant forall q :: 0 <= q < k ==> row[q] == OscillatorRate(a, dOsc[q], rrSC, rrGS, dBdA)
    {
      row := row + [a * dOsc[k] * (rrSC + dBdA * rrGS)];
      k := k + 1;
    }
  }

  /** What a derivative request supplies: the parameter's name, the type of
      the error model it belongs to (for biases), how many of the
      measurement's participants the object's name contains, the
      parameter's size, the oscillator's frequency derivatives with respect
      to its drift and to its polynomial coefficients, and the derivatives
      of the four paths (ESC's being the measurement model's, at the
      measurement epoch for a pass bias). */
  datatype ReturnDerivativeRequest = ReturnDerivativeRequest(
    paramName: string,
    errorModelType: string,
    participantMatches: nat,
    parameterSize: nat,
    driftDerivative: real,
    coefficientDerivatives: seq<real>,
    esc: seq<seq<real>>,
    egs: seq<seq<real>>,
    ssc: seq<seq<real>>,
    sgs: seq<seq<real>>)

  // ---------------------------------------------------------------------
  // The adapter
  // ---------------------------------------------------------------------

  /** The state a measurement changes, with the outcome. */
  datatype ReturnUpdate = ReturnUpdate(
    outcome: Outcome,
    config: D.TdrsConfig,
    st: ReturnState,
    measurementBias: seq<real>,
    noiseSigma: seq<real>)

  /** The settings once the End-Spacecraft path's transmit frequency and
      band are taken as the node-4 frequency and band. */
  function WithNode4(cfg: D.TdrsConfig, inp: ReturnInputs): D.TdrsConfig
  {
    cfg.(node4Freq := inp.node4Freq, node4FreqBand := inp.node4Band)
  }

  function ContextOf(cfg: D.TdrsConfig, measurementType: string, settings: R.ErrorSettings, biases: seq<real>,
                     esc: R.MeasurementData, inp: ReturnInputs): ReturnContext
  {
    ReturnContext(WithNode4(cfg, inp), measurementType, settings, biases, esc, inp)
  }

  /** The inputs agree with the paths wherever the walk runs. */
  predicate Ready(u: ReturnUpdate, measurementType: string, settings: R.ErrorSettings, epochValid: bool,
                  obs: Option<D.TdrsObservation>, draw: nat, esc: Result<R.MeasurementData>, inp: ReturnInputs, biases: seq<real>)
  {
    epochValid && Configured(u.config, obs, draw).Ok? && esc.Ok? ==>
      var ctx := ContextOf(Configured(u.config, obs, draw).value, measurementType, settings, biases, esc.value, inp);
      Fits(ctx) || (PathCount(ctx) > 0 && !Divisible(ctx))
  }

  /** The record once the TDRS fields are written, the epoch taken from
      the End-Spacecraft record and the entries cleared. */
  function Cleared(d: D.DopplerData, cfg: D.TdrsConfig, esc: R.MeasurementData): D.DopplerData
    requires D.ValidIndex(cfg)
  {
    D.Tagged(d, cfg).(base := d.base.(value := [], correction := [], epoch := esc.epoch))
  }

  /** The state after a measurement from state u. An epoch off the
      ephemerides only marks the record "EGAP"; otherwise the settings are
      taken from the observation or drawn, the End-Spacecraft record is
      computed, the node-4 frequency and band taken from it, the record's
      TDRS fields written and its entries cleared, and the paths walked; a
      path with a zero count interval or multiplier factor fails with a
      division by zero. The error model's biases and sigmas are taken when
      there is a path, and an epoch that fails the second check marks the
      record "EGAP". */
  function Calculated(u: ReturnUpdate, measurementType: string, settings: R.ErrorSettings,
                      epochValid: bool, epochStillValid: bool, obs: Option<D.TdrsObservation>, draw: nat,
                      esc: Result<R.MeasurementData>, inp: ReturnInputs, biases: seq<real>, sigmas: seq<real>): ReturnUpdate
    requires Ready(u, measurementType, settings, epochValid, obs, draw, esc, inp, biases)
  {
    if !epochValid then u.(outcome := Pass, st := u.st.(d := u.st.d.(base := D.MarkedGap(u.st.d.base))))
    else match Configured(u.config, obs, draw)
      case Err(e) => u.(outcome := Fail(e))
      case Ok(c) =>
        if esc.Err? then u.(outcome := Fail(esc.msg), config := c)
        else
          var ctx := ContextOf(c, measurementType, settings, biases, esc.value, inp);
          var st0 := u.st.(d := Cleared(u.st.d, ctx.cfg, esc.value));
          if PathCount(ctx) > 0 && !Divisible(ctx) then ReturnUpdate(Fail(DivisionByZero), ctx.cfg, st0, u.measurementBias, u.noiseSigma)
          else
            var st := StateAfter(ctx, st0, PathCount(ctx));
            var taken := measurementType == ReturnType && PathCount(ctx) > 0;
            var st' := if !epochStillValid then st.(d := st.d.(base := D.MarkedGap(st.d.base))) else st;
            ReturnUpdate(Pass, ctx.cfg, st', if taken then biases else u.measurementBias, if taken then sigmas else u.noiseSigma)
  }

  /** The measurement computation of the adapter. */
  method Calculate(u: ReturnUpdate, measurementType: string, settings: R.ErrorSettings,
                   epochValid: bool, epochStillValid: bool, obs: Option<D.TdrsObservation>, draw: nat,
                   esc: Result<R.MeasurementData>, inp: ReturnInputs, biases: seq<real>, sigmas: seq<real>)
    returns (next: ReturnUpdate)
    requires Ready(u, measurementType, settings, epochValid, obs, draw, esc, inp, biases)
    ensures next == Calculated(u, measurementType, settings, epochValid, epochStillValid, obs, draw, esc, inp, biases, sigmas)
  {
    next := u.(outcome := Pass);
    if !epochValid {
      next := next.(st := u.st.(d := u.st.d.(base := D.MarkedGap(u.st.d.base))));
      return;
    }
    var c := Configured(u.config, obs, draw);
    if c.Err? {
      return u.(outcome := Fail(c.msg));
    }
    next := next.(config := c.value);
    if esc.Err? {
      return next.(outcome := Fail(esc.msg));
    }
    var ctx := ContextOf(c.value, measurementType, settings, biases, esc.value, inp);
    next := next.(config := ctx.cfg, st := u.st.(d := Cleared(u.st.d, ctx.cfg, esc.value)));
    if PathCount(ctx) > 0 && !Divisible(ctx) {
      return next.(outcome := Fail(DivisionByZero));
    }
    var st := PushPaths(ctx, next.st);
    next := next.(st := st);
    if measurementType == ReturnType && PathCount(ctx) > 0 {
      next := next.(measurementBias := biases, noiseSigma := sigmas);
    }
    if !epochStillValid {
      next := next.(st := next.st.(d := next.st.d.(base := D.MarkedGap(next.st.d.base))));
    }
  }

  datatype RealId = DopplerCountIntervalId | Node4FrequencyId
  datatype IntegerId = Node4BandId | SmarIdId | DataFlagId

  const InitialState := ReturnState(D.InitialRecord, D.Multipliers(0.0, 0.0, 0.0, 0.0), 0.0, 0.0, 0.0)

  class TDRS3LReturnDopplerAdapter {
    var instanceName: string
    var typeName: string
    var measurementType: string
    var config: D.TdrsConfig
    var settings: R.ErrorSettings
    var otherFlags: map<int, bool>
    /** The boolean settings of the four path adapters. */
    var escFlags: D.PathFlags
    var egsFlags: D.PathFlags
    var sscFlags: D.PathFlags
    var sgsFlags: D.PathFlags
    var measurementBias: seq<real>
    var noiseSigma: seq<real>
    /** The frequency mixer factor a of the effective frequency. */
    var frequencyMixer: real
    /** The record and the last path's multipliers, ratios and pilot derivative. */
    var st: ReturnState
    /** Whether the measurement model the adapter reads has been set. */
    var hasCalcData: bool

    constructor (name: string, measType: string)
      ensures instanceName == name && typeName == ReturnType && measurementType == measType
      ensures config.serviceAccessList == [] && config.dopplerCountInterval == 1.0 && config.node4Freq == 2000.0
      ensures config.node4FreqBand == 1 && config.smarId == 0 && config.dataFlag == 0
      ensures settings == R.ErrorSettings(false, false, false, false) && otherFlags == map[]
      ensures escFlags == egsFlags == sscFlags == sgsFlags == D.PathFlags(false, map[])
      ensures measurementBias == [] && noiseSigma == [] && frequencyMixer == 1.0
      ensures st == InitialState && !hasCalcData
    {
      instanceName, typeName, measurementType := name, ReturnType, measType;
      config := D.TdrsConfig([], 0, 1.0, 2000.0, 1, 0, 0);
      settings := R.ErrorSettings(false, false, false, false);
      otherFlags := map[];
      escFlags, egsFlags := D.PathFlags(false, map[]), D.PathFlags(false, map[]);
      sscFlags, sgsFlags := D.PathFlags(false, map[]), D.PathFlags(false, map[]);
      measurementBias, noiseSigma := [], [];
      frequencyMixer := 1.0;
      st := InitialState;
      hasCalcData := false;
    }

    /** Sets the service access at index: inside the list it overwrites,
        just past its end it appends, elsewhere it fails. */
    method SetServiceAccess(index: int, value: string) returns (r: Outcome)
      modifies this
      ensures r.Pass? <==> 0 <= index <= |old(config.serviceAccessList)|
      ensures r.Fail? ==> r.msg == SetIndexError && config == old(config)
      ensures r.Pass? ==> config == old(config).(serviceAccessList := SetAt(old(config.serviceAccessList), index, value).value)
      ensures instanceName == old(instanceName) && typeName == old(typeName) && measurementType == old(measurementType)
      ensures settings == old(settings) && otherFlags == old(otherFlags)
      ensures escFlags == old(escFlags) && egsFlags == old(egsFlags) && sscFlags == old(sscFlags) && sgsFlags == old(sgsFlags)
      ensures measurementBias == old(measurementBias) && noiseSigma == old(noiseSigma) && frequencyMixer == old(frequencyMixer)
      ensures st == old(st) && hasCalcData == old(hasCalcData)
    {
      var l := SetAt(config.serviceAccessList, index, value);
      SetAtMeaning(config.serviceAccessList, index, value);
      if l.Err? {
        return Fail(l.msg);
      }
      config := config.(serviceAccessList := l.value);
      return Pass;
    }

    /** The service access at index, or the out-of-bound message. */
    method GetServiceAccess(index: int) returns (r: Result<string>)
      ensures r == GetAt(config.serviceAccessList, index)
      ensures r.Ok? <==> 0 <= index < |config.serviceAccessList|
    {
      if 0 <= index && index < |config.serviceAccessList| {
        return Ok(config.serviceAccessList[index]);
      }
      return Err(GetIndexError(index, |config.serviceAccessList|));
    }

    /** Sets the count interval or the node-4 frequency; neither takes a
        value that is not positive. */
    method SetRealParameter(id: RealId, value: real) returns (r: Result<real>)
      modifies this
      ensures r.Ok? <==> value > 0.0
      ensures r.Ok? ==> r.value == value
      ensures r.Err? ==> r.msg == (if id == DopplerCountIntervalId then D.CountIntervalError else D.Node4FrequencyError)
      ensures r.Err? ==> config == old(config)
      ensures r.Ok? && id == DopplerCountIntervalId ==> config == old(config).(dopplerCountInterval := value)
      ensures r.Ok? && id == Node4FrequencyId ==> config == old(config).(node4Freq := value)
      ensures instanceName == old(instanceName) && typeName == old(typeName) && measurementType == old(measurementType)
      ensures settings == old(settings) && otherFlags == old(otherFlags)
      ensures escFlags == old(escFlags) && egsFlags == old(egsFlags) && sscFlags == old(sscFlags) && sgsFlags == old(sgsFlags)
      ensures measurementBias == old(measurementBias) && noiseSigma == old(noiseSigma) && frequencyMixer == old(frequencyMixer)
      ensures st == old(st) && hasCalcData == old(hasCalcData)
    {
      if id == DopplerCountIntervalId {
        if value <= 0.0 {
          return Err(D.CountIntervalError);
        }
        config := config.(dopplerCountInterval := value);
        return Ok(config.dopplerCountInterval);
      }
      if value <= 0.0 {
        return Err(D.Node4FrequencyError);
      }
      config := config.(node4Freq := value);
      return Ok(config.node4Freq);
    }

    /** Sets the node-4 band, the SMA receiver id or the data flag, unchecked;
        the returned "true" is the integer 1. */
    method SetIntegerParameter(id: IntegerId, value: int) returns (r: int)
      modifies this
      ensures r == 1
      ensures id == Node4BandId ==> config == old(config).(node4FreqBand := value)
      ensures id == SmarIdId ==> config == old(config).(smarId := value)
      ensures id == DataFlagId ==> config == old(config).(dataFlag := value)
      ensures instanceName == old(instanceName) && typeName == old(typeName) && measurementType == old(measurementType)
      ensures settings == old(settings) && otherFlags == old(otherFlags)
      ensures escFlags == old(escFlags) && egsFlags == old(egsFlags) && sscFlags == old(sscFlags) && sgsFlags == old(sgsFlags)
      ensures measurementBias == old(measurementBias) && noiseSigma == old(noiseSigma) && frequencyMixer == old(frequencyMixer)
      ensures st == old(st) && hasCalcData == old(hasCalcData)
    {
      match id {
        case Node4BandId => config := config.(node4FreqBand := value);
        case SmarIdId => config := config.(smarId := value);
        case DataFlagId => config := config.(dataFlag := value);
      }
      return 1;
    }

    /** Sets a boolean setting here and on the four path adapters, except
        that the path adapters never take AddNoise: they are set to false. */
    method SetBooleanParameter(id: D.BooleanId, value: bool)
      modifies this
      ensures var pathValue := if id == D.AddNoiseId then false else value;
        && escFlags == D.SetFlag(old(escFlags), id, pathValue) && egsFlags == D.SetFlag(old(egsFlags), id, pathValue)
        && sscFlags == D.SetFlag(old(sscFlags), id, pathValue) && sgsFlags == D.SetFlag(old(sgsFlags), id, pathValue)
      ensures id == D.AddNoiseId ==> settings == old(settings).(addNoise := value) && otherFlags == old(otherFlags)
      ensures id.OtherBooleanId? ==> settings == old(settings) && otherFlags == old(otherFlags)[id.id := value]
      ensures id == D.AddNoiseId ==> !escFlags.addNoise && !egsFlags.addNoise && !sscFlags.addNoise && !sgsFlags.addNoise
      ensures instanceName == old(instanceName) && typeName == old(typeName) && measurementType == old(measurementType)
      ensures config == old(config)
      ensures measurementBias == old(measurementBias) && noiseSigma == old(noiseSigma) && frequencyMixer == old(frequencyMixer)
      ensures st == old(st) && hasCalcData == old(hasCalcData)
    {
      var pathValue := if id == D.AddNoiseId then false else value;
      sscFlags := D.SetFlag(sscFlags, id, pathValue);
      sgsFlags := D.SetFlag(sgsFlags, id, pathValue);
      escFlags := D.SetFlag(escFlags, id, pathValue);
      egsFlags := D.SetFlag(egsFlags, id, pathValue);
      match id {
        case AddNoiseId => settings := settings.(addNoise := value);
        case OtherBooleanId(k) => otherFlags := otherFlags[k := value];
      }
    }

    /** Initializes after the base range adapter (baseReady) and the four
        path adapters: the service index goes back to 0, and success needs
        every path adapter. */
    method Initialize(baseReady: bool, sscReady: bool, sgsReady: bool, escReady: bool, egsReady: bool) returns (r: bool)
      modifies this
      ensures r <==> baseReady && sscReady && sgsReady && escReady && egsReady
      ensures config == if baseReady then old(config).(serviceAccessIndex := 0) else old(config)
      ensures instanceName == old(instanceName) && typeName == old(typeName) && measurementType == old(measurementType)
      ensures settings == old(settings) && otherFlags == old(otherFlags)
      ensures escFlags == old(escFlags) && egsFlags == old(egsFlags) && sscFlags == old(sscFlags) && sgsFlags == old(sgsFlags)
      ensures measurementBias == old(measurementBias) && noiseSigma == old(noiseSigma) && frequencyMixer == old(frequencyMixer)
      ensures st == old(st) && hasCalcData == old(hasCalcData)
    {
      r := false;
      if baseReady {
        config := config.(serviceAccessIndex := 0);
        r := sscReady;
        r := sgsReady && r;
        r := escReady && r;
        r := egsReady && r;
      }
    }

    /** The adapter's state that a measurement may change. */
    function Current(): ReturnUpdate
      reads this
    {
      ReturnUpdate(Pass, config, st, measurementBias, noiseSigma)
    }

    /** Computes the return Doppler measurement. epochValid and
        epochStillValid are the epoch checks before and after the
        computation, obs the observation (none when simulating) and draw
        the random draw that picks a service access; esc is the
        End-Spacecraft record its range adapter computes (or its failure),
        inp the other paths' records and what the oscillator, the pilot
        frequency and the error model supply. */
    method CalculateMeasurement(epochValid: bool, epochStillValid: bool, obs: Option<D.TdrsObservation>, draw: nat,
                                esc: Result<R.MeasurementData>, inp: ReturnInputs, biases: seq<real>, sigmas: seq<real>)
      returns (r: Outcome)
      requires Ready(Current(), measurementType, settings, epochValid, obs, draw, esc, inp, biases)
      modifies this
      ensures var u := Calculated(old(Current()), old(measurementType), old(settings), epochValid, epochStillValid, obs, draw, esc, inp, biases, sigmas);
        && r == u.outcome && config == u.config && st == u.st
        && measurementBias == u.measurementBias && noiseSigma == u.noiseSigma
      ensures instanceName == old(instanceName) && typeName == old(typeName) && measurementType == old(measurementType)
      ensures settings == old(settings) && otherFlags == old(otherFlags)
      ensures escFlags == old(escFlags) && egsFlags == old(egsFlags) && sscFlags == old(sscFlags) && sgsFlags == old(sgsFlags)
      ensures frequencyMixer == old(frequencyMixer) && hasCalcData == old(hasCalcData)
    {
      var u := Calculate(Current(), measurementType, settings, epochValid, epochStillValid, obs, draw, esc, inp, biases, sigmas);
      config, st := u.config, u.st;
      measurementBias, noiseSigma := u.measurementBias, u.noiseSigma;
      r := u.outcome;
    }

    /** The derivatives of the measurement with respect to a parameter. A
        bias of a return Doppler error model shared by more than one
        participant, and a pass bias of such a model, take the ESC
        derivatives; any other bias a row of zeros. The oscillator's drift
        and polynomial coefficients take their oscillator rates at the last
        path. Any other parameter copies the four tables, each of which
        must be rectangular, and combines them with the last multipliers. */
    method CalculateMeasurementDerivatives(req: ReturnDerivativeRequest) returns (r: Result<seq<seq<real>>>)
      ensures !hasCalcData ==> r == Err(R.DerivativesNotSetError(instanceName))
      ensures hasCalcData && req.paramName == "Bias" ==>
        r == Ok(if req.errorModelType == ReturnType && req.participantMatches > 1 then req.esc else R.ZeroRow(req.parameterSize))
      ensures hasCalcData && req.paramName == "PassBiases" ==>
        r == Ok(if req.errorModelType == ReturnType then req.esc else R.ZeroRow(req.parameterSize))
      ensures hasCalcData && req.paramName == "FrequencyDrift" ==>
        r == Ok([[OscillatorRate(frequencyMixer, req.driftDerivative, st.rrSC, st.rrGS, st.dBdA)]])
      ensures hasCalcData && req.paramName == "FrequencyPolynomialCoefficients" ==>
        && r.Ok? && |r.value| == 1 && |r.value[0]| == |req.coefficientDerivatives|
        && forall k :: 0 <= k < |req.coefficientDerivatives| ==>
             r.value[0][k] == OscillatorRate(frequencyMixer, req.coefficientDerivatives[k], st.rrSC, st.rrGS, st.dBdA)
      ensures hasCalcData && req.paramName !in {"Bias", "PassBiases", "FrequencyDrift", "FrequencyPolynomialCoefficients"} ==>
        D.CopiedAndCombined(ReturnSizeErrors, req.paramName, st.mult, req.esc, req.egs, req.ssc, req.sgs, r)
    {
      if !hasCalcData {
        return Err(R.DerivativesNotSetError(instanceName));
      }
      if req.paramName == "Bias" {
        if req.errorModelType == ReturnType && req.participantMatches > 1 {
          return Ok(req.esc);
        }
        return Ok(R.ZeroRow(req.parameterSize));
      } else if req.paramName == "PassBiases" {
        if req.errorModelType == ReturnType {
          return Ok(req.esc);
        }
        return Ok(R.ZeroRow(req.parameterSize));
      } else if req.paramName == "FrequencyDrift" {
        var dA := frequencyMixer * req.driftDerivative;
        var rate := dA * (st.rrSC + st.dBdA * st.rrGS);
        assert rate == OscillatorRate(frequencyMixer, req.driftDerivative, st.rrSC, st.rrGS, st.dBdA);
        return Ok([[rate]]);
      } else if req.paramName == "FrequencyPolynomialCoefficients" {
        var row := PolynomialRow(frequencyMixer, req.coefficientDerivatives, st.rrSC, st.rrGS, st.dBdA);
        return Ok([row]);
      }
      r := D.FourPathDerivatives(ReturnSizeErrors, req.paramName, st.mult, req.esc, req.egs, req.ssc, req.sgs);
    }
  }
}
