/** The BRTS Doppler adapter: a BRTS range adapter (the End-Long path) with
    three more range adapters (End-Short, Start-Long, Start-Short) whose
    ranges it combines, through signed multipliers built from the node-4
    frequency and a TDRS pilot frequency, into a Doppler count in Hz. */
module BRTSDopplerAdapterModel {
  import opened Common
  import opened TdrsServiceAccess
  import R = BRTSRangeAdapterModel

  const DopplerType := "BRTS_Doppler"

  /** The speed of light in km/s. */
  const SpeedOfLightKm: real := R.SpeedOfLightVacuum * R.MToKm

  /** Hz per MHz. */
  const MHz: real := 1000000.0

  const CountIntervalError := "Error: Doppler count interval has a nonpositive value\n"
  const Node4FrequencyError := "Error: TDRS node 4 frequency has to be a positive number\n"
  const EmptySimulationListError :=
    "Error: Simulation TDRS service access list is empty. In GMAT script, it needs to add service access to the list.\n"
  const SA1BandError := "Error: TDRS SA1 service access is not available for other bands except S-band and K-band.\n"
  const SA2BandError := "Error: TDRS SA2 service access is not available for other bands except S-band and K-band.\n"
  const MABandError := "Error: TDRS MA service access is not available for other bands except S-band.\n"
  const DataFlagError := "Error: TDRS data flag has an invalid value.\n"

  /** The messages of a second, third and fourth derivative table whose
      width differs from the first's. */
  datatype SizeErrors = SizeErrors(second: string, third: string, fourth: string)

  const PathSizeErrors := SizeErrors(
    "Derivative data size for End-Short path is a different size than expected",
    "Derivative data size for Start-Long path is a different size than expected",
    "Derivative data size for Start-Short path is a different size than expected")

  function UnknownServiceError(service: string): string
  {
    "Error: TDRS has no service access of '" + service + "'.\n"
  }

  // ---------------------------------------------------------------------
  // TDRS id
  // ---------------------------------------------------------------------

  predicate IsDigit(c: char) { '0' <= c <= '9' }

  /** Where the trailing run of digits of an id starts. */
  function DigitRunStart(id: string): (k: nat)
    ensures k <= |id|
  {
    if |id| == 0 then 0
    else if IsDigit(id[|id| - 1]) then DigitRunStart(id[..|id| - 1])
    else |id|
  }

  /** The TDRS id: the trailing digits of the node's id. */
  function TdrsId(id: string): string
  {
    id[DigitRunStart(id)..]
  }

  /** The suffix is all digits and cannot be extended to the left. */
  lemma {:induction false} TdrsIdIsMaximalDigitRun(id: string)
    ensures forall j :: DigitRunStart(id) <= j < |id| ==> IsDigit(id[j])
    ensures DigitRunStart(id) > 0 ==> !IsDigit(id[DigitRunStart(id) - 1])
  {
    if |id| > 0 && IsDigit(id[|id| - 1]) {
      var prefix := id[..|id| - 1];
      TdrsIdIsMaximalDigitRun(prefix);
      assert forall j :: 0 <= j < |prefix| ==> prefix[j] == id[j];
    }
  }

  /** Scans the id from its end while the characters are digits. */
  method TdrsIdSuffix(id: string) returns (suffix: string)
    ensures suffix == TdrsId(id)
  {
    var index := |id| - 1;
    assert id[..index + 1] == id;
    while index >= 0
      invariant -1 <= index < |id|
      invariant DigitRunStart(id) == DigitRunStart(id[..index + 1])
      decreases index + 1
    {
      if IsDigit(id[index]) {
        assert id[..index + 1][..index] == id[..index];
        index := index - 1;
      } else {
        break;
      }
    }
    suffix := id[index + 1..];
  }

  // ---------------------------------------------------------------------
  // Pilot frequency
  // ---------------------------------------------------------------------

  /** Truncation toward zero, as a whole number. */
  function Truncated(x: real): (k: int)
    ensures x >= 0.0 ==> k as real <= x < k as real + 1.0
    ensures x < 0.0 ==> k as real - 1.0 < x <= k as real
  {
    if x >= 0.0 then x.Floor else -((-x).Floor)
  }

  /** Truncation toward zero. */
  function Fix(x: real): real
  {
    Truncated(x) as real
  }

  predicate IsLaterTdrs(tdrsId: string)
  {
    tdrsId == "8" || tdrsId == "9" || tdrsId == "10"
  }

  /** The MA pilot frequency of TDRS 8 to 10 by SMA receiver id. */
  function MaPilot(smarId: int): (r: real)
    ensures 2 <= smarId <= 8 ==> r == 13405.0 + 7.5 * (smarId - 1) as real
    ensures 27 <= smarId <= 30 ==> r == 13600.0 + 7.5 * (smarId - 27) as real
    ensures !(2 <= smarId <= 8 || 27 <= smarId <= 30) ==> r == 13405.0
  {
    match smarId
    case 2 => 13412.5
    case 3 => 13420.0
    case 4 => 13427.5
    case 5 => 13435.0
    case 6 => 13442.5
    case 7 => 13450.0
    case 8 => 13457.5
    case 27 => 13600.0
    case 28 => 13607.5
    case 29 => 13615.0
    case 30 => 13622.5
    case _ => 13405.0
  }

  /** The pilot frequency in MHz of a service access, band, TDRS id, SMA
      receiver id and data flag; effFreq is the node-4 frequency in MHz. */
  function PilotFrequency(service: string, band: int, effFreq: real, tdrsId: string, smarId: int, dataFlag: int)
    : (r: Result<real>)
    ensures r.Ok? <==>
      || ((service == "SA1" || service == "SA2") && (band == 1 || band == 3))
      || (service == "MA" && band == 1 && (IsLaterTdrs(tdrsId) || dataFlag == 0 || dataFlag == 1))
    ensures service == "SA1" && band != 1 && band != 3 ==> r == Err(SA1BandError)
    ensures service == "SA2" && band != 1 && band != 3 ==> r == Err(SA2BandError)
    ensures service == "MA" && band != 1 ==> r == Err(MABandError)
    ensures service == "MA" && band == 1 && !IsLaterTdrs(tdrsId) && dataFlag != 0 && dataFlag != 1 ==> r == Err(DataFlagError)
    ensures service != "SA1" && service != "SA2" && service != "MA" ==> r == Err(UnknownServiceError(service))
  {
    if service == "SA1" then
      (if band == 1 then Ok(13677.5 - Fix(effFreq * 2.0 + 0.5) / 2.0)
       else if band == 3 then Ok(-1475.0)
       else Err(SA1BandError))
    else if service == "SA2" then
      (if band == 1 then Ok(13697.5 - Fix(effFreq * 2.0 + 0.5) / 2.0)
       else if band == 3 then Ok(-1075.0)
       else Err(SA2BandError))
    else if service == "MA" then
      (if band != 1 then Err(MABandError)
       else if IsLaterTdrs(tdrsId) then Ok(MaPilot(smarId))
       else if dataFlag == 0 then Ok(-2279.0)
       else if dataFlag == 1 then Ok(-2287.5)
       else Err(DataFlagError))
    else Err(UnknownServiceError(service))
  }

  /** The SA2 pilot lies 20 MHz above SA1's in S-band and 400 MHz above
      it in K-band. */
  lemma SA2AboveSA1(band: int, effFreq: real, tdrsId: string, smarId: int, dataFlag: int)
    requires band == 1 || band == 3
    ensures PilotFrequency("SA2", band, effFreq, tdrsId, smarId, dataFlag).value
         == PilotFrequency("SA1", band, effFreq, tdrsId, smarId, dataFlag).value + (if band == 1 then 20.0 else 400.0)
  {
  }

  /** The S-band SA1 pilot is 13677.5 MHz less the node-4 frequency rounded
      to the half MHz: within a quarter MHz of it, and on the half-MHz grid. */
  lemma SA1PilotTracksNode4(effFreq: real, tdrsId: string, smarId: int, dataFlag: int)
    requires effFreq >= 0.0
    ensures var p := PilotFrequency("SA1", 1, effFreq, tdrsId, smarId, dataFlag).value;
      && 13677.5 - effFreq - 0.25 <= p < 13677.5 - effFreq + 0.25
      && p * 2.0 == (p * 2.0).Floor as real
  {
    var y := effFreq * 2.0 + 0.5;
    var k := Truncated(y);
    assert k as real <= y < k as real + 1.0;
    var p := 13677.5 - (k as real) / 2.0;
    assert PilotFrequency("SA1", 1, effFreq, tdrsId, smarId, dataFlag).value == p;
    assert 13677.5 - effFreq - 0.25 <= p < 13677.5 - effFreq + 0.25;
    assert p * 2.0 == (27355 - k) as real;
    assert ((27355 - k) as real).Floor == 27355 - k;
  }

  // ---------------------------------------------------------------------
  // Multipliers and the combined value
  // ---------------------------------------------------------------------

  /** The Hz-per-km multipliers of the four paths. */
  datatype Multipliers = Multipliers(sl: real, ss: real, el: real, es: real)

  /** The multipliers for a node-4 frequency and a pilot frequency (MHz)
      over a count interval (s): the long paths scale by the node-4
      frequency, the short ones by the pilot, Start positive, End negative. */
  function DopplerMultipliers(effFreq: real, pilotFreq: real, countInterval: real): (r: Result<Multipliers>)
    ensures r.Ok? <==> countInterval != 0.0
    ensures r.Err? ==> r.msg == DivisionByZero
    ensures r.Ok? ==> r.value.el == -r.value.sl && r.value.es == -r.value.ss
    ensures r.Ok? ==> r.value.sl * (countInterval * SpeedOfLightKm) == effFreq * MHz
    ensures r.Ok? ==> r.value.ss * (countInterval * SpeedOfLightKm) == pilotFreq * MHz
  {
    if countInterval == 0.0 then Err(DivisionByZero)
    else
      var d := countInterval * SpeedOfLightKm;
      Ok(Multipliers((effFreq * MHz) / d, (pilotFreq * MHz) / d, -(effFreq * MHz) / d, -(pilotFreq * MHz) / d))
  }

  /** The multiplier factors of the four path adapters. */
  datatype Factors = Factors(el: real, es: real, sl: real, ss: real)

  predicate NonZero(f: Factors)
  {
    f.el != 0.0 && f.es != 0.0 && f.sl != 0.0 && f.ss != 0.0
  }

  /** The Doppler value from the four path values. */
  function Combine(m: Multipliers, f: Factors, el: real, es: real, sl: real, ss: real): real
    requires NonZero(f)
  {
    m.el * (el / f.el) + m.sl * (sl / f.sl) + m.es * (es / f.es) + m.ss * (ss / f.ss)
  }

  /** With opposite End and Start multipliers, the Doppler value weighs
      the change of each path pair's range. */
  lemma CombineAsDifferences(m: Multipliers, f: Factors, el: real, es: real, sl: real, ss: real)
    requires NonZero(f) && m.el == -m.sl && m.es == -m.ss
    ensures Combine(m, f, el, es, sl, ss) == m.sl * (sl / f.sl - el / f.el) + m.ss * (ss / f.ss - es / f.es)
  {
  }

  /** Two quotients over the same divisor, each scaled, add up over it. */
  lemma SumOverDivisor(x: real, y: real, d: real, a: real, b: real)
    requires d != 0.0
    ensures x / d * a + y / d * b == (x * a + y * b) / d
  {
    assert x / d * a == (x * a) / d;
    assert y / d * b == (y * b) / d;
  }

  /** The Doppler count is the change of the long-path range from End to
      Start times the node-4 frequency, plus the change of the short-path
      range times the pilot frequency, over the count interval and c. */
  lemma CombineIsRangeChange(effFreq: real, pilotFreq: real, countInterval: real, f: Factors,
                             el: real, es: real, sl: real, ss: real)
    requires countInterval != 0.0 && NonZero(f)
    ensures Combine(DopplerMultipliers(effFreq, pilotFreq, countInterval).value, f, el, es, sl, ss)
         == ((effFreq * MHz) * (sl / f.sl - el / f.el) + (pilotFreq * MHz) * (ss / f.ss - es / f.es)) / (countInterval * SpeedOfLightKm)
  {
    var d := countInterval * SpeedOfLightKm;
    var m := DopplerMultipliers(effFreq, pilotFreq, countInterval).value;
    CombineAsDifferences(m, f, el, es, sl, ss);
    assert m.sl == (effFreq * MHz) / d && m.ss == (pilotFreq * MHz) / d;
    SumOverDivisor(effFreq * MHz, pilotFreq * MHz, d, sl / f.sl - el / f.el, ss / f.ss - es / f.es);
  }

  /** Paths whose Start and End ranges agree count no cycles. */
  lemma StationaryPathsCountNothing(effFreq: real, pilotFreq: real, countInterval: real, f: Factors,
                                    el: real, es: real, sl: real, ss: real)
    requires countInterval != 0.0 && NonZero(f)
    requires sl / f.sl == el / f.el && ss / f.ss == es / f.es
    ensures Combine(DopplerMultipliers(effFreq, pilotFreq, countInterval).value, f, el, es, sl, ss) == 0.0
  {
    CombineIsRangeChange(effFreq, pilotFreq, countInterval, f, el, es, sl, ss);
  }

  // ---------------------------------------------------------------------
  // Feasibility
  // ---------------------------------------------------------------------

  function FeasibilityOf(m: R.MeasurementData): R.Feasibility
  {
    R.Feasibility(m.isFeasible, m.unfeasibleReason, m.feasibilityValue)
  }

  function WithFeasibility(m: R.MeasurementData, f: R.Feasibility): R.MeasurementData
  {
    m.(isFeasible := f.isFeasible, unfeasibleReason := f.reason, feasibilityValue := f.value)
  }

  /** The feasibility of the Doppler measurement: that of the first
      infeasible path in the order End-Long, End-Short, Start-Long,
      Start-Short, or the End-Long path's when all are feasible. */
  function CombinedFeasibility(el: R.MeasurementData, es: R.MeasurementData, sl: R.MeasurementData, ss: R.MeasurementData)
    : (r: R.Feasibility)
    ensures r.isFeasible <==> el.isFeasible && es.isFeasible && sl.isFeasible && ss.isFeasible
  {
    if !el.isFeasible then FeasibilityOf(el)
    else if !es.isFeasible then FeasibilityOf(es)
    else if !sl.isFeasible then FeasibilityOf(sl)
    else if !ss.isFeasible then FeasibilityOf(ss)
    else FeasibilityOf(el)
  }

  /** The first infeasible record of a list, or the fallback. */
  function FirstInfeasible(ms: seq<R.MeasurementData>, fallback: R.Feasibility): R.Feasibility
  {
    if |ms| == 0 then fallback
    else if !ms[0].isFeasible then FeasibilityOf(ms[0])
    else FirstInfeasible(ms[1..], fallback)
  }

  /** The precedence is a first-match scan of End-Long, End-Short,
      Start-Long, Start-Short. */
  lemma CombinedFeasibilityIsFirstInfeasible(el: R.MeasurementData, es: R.MeasurementData,
                                             sl: R.MeasurementData, ss: R.MeasurementData)
    ensures CombinedFeasibility(el, es, sl, ss) == FirstInfeasible([el, es, sl, ss], FeasibilityOf(el))
  {
    var fb := FeasibilityOf(el);
    assert [ss][1..] == [];
    assert FirstInfeasible([ss], fb) == if !ss.isFeasible then FeasibilityOf(ss) else fb;
    assert [sl, ss][1..] == [ss];
    assert FirstInfeasible([sl, ss], fb) == if !sl.isFeasible then FeasibilityOf(sl) else FirstInfeasible([ss], fb);
    assert [es, sl, ss][1..] == [sl, ss];
    assert FirstInfeasible([es, sl, ss], fb) == if !es.isFeasible then FeasibilityOf(es) else FirstInfeasible([sl, ss], fb);
    assert [el, es, sl, ss][1..] == [es, sl, ss];
  }

  /** Recombining with the combined feasibility in place of End-Long's
      changes nothing. */
  lemma CombinedFeasibilitySettles(el: R.MeasurementData, es: R.MeasurementData,
                                   sl: R.MeasurementData, ss: R.MeasurementData)
    ensures CombinedFeasibility(WithFeasibility(el, CombinedFeasibility(el, es, sl, ss)), es, sl, ss)
         == CombinedFeasibility(el, es, sl, ss)
  {
  }

  // ---------------------------------------------------------------------
  // Noise and bias
  // ---------------------------------------------------------------------

  /** A value (or correction) x after noise and bias: both are added to a
      measurement of the adapter's own type (applies) that is not
      range-only, the noise only when asked for and the reason is not "R". */
  function DopplerApplied(applies: bool, s: R.ErrorSettings, reason: string, x: real, noise: real, bias: real): real
  {
    if applies && !s.rangeOnly then
      x + (if s.addNoise && reason != "R" then noise else 0.0) + (if s.addBias then bias else 0.0)
    else x
  }

  /** Noise and bias go into the value and the correction alike, and a
      measurement of another type or a range-only one is untouched. */
  lemma DopplerAppliedKeepsDifference(applies: bool, s: R.ErrorSettings, reason: string,
                                      v: real, c: real, noise: real, bias: real)
    ensures DopplerApplied(applies, s, reason, v, noise, bias) - DopplerApplied(applies, s, reason, c, noise, bias) == v - c
    ensures !applies || s.rangeOnly ==> DopplerApplied(applies, s, reason, v, noise, bias) == v
  {
  }

  /** The biases the settings read cover the first n indices. */
  predicate BiasesCover(applies: bool, s: R.ErrorSettings, biases: seq<real>, n: nat)
  {
    applies && !s.rangeOnly && s.addBias && !s.usePassBias ==> |biases| >= n
  }

  // ---------------------------------------------------------------------
  // The configuration and the measurement record
  // ---------------------------------------------------------------------

  /** The adapter's TDRS settings. */
  datatype TdrsConfig = TdrsConfig(
    serviceAccessList: seq<string>,
    serviceAccessIndex: int,
    dopplerCountInterval: real,
    node4Freq: real,
    node4FreqBand: int,
    smarId: int,
    dataFlag: int)

  predicate ValidIndex(cfg: TdrsConfig)
  {
    0 <= cfg.serviceAccessIndex < |cfg.serviceAccessList|
  }

  /** What an observation carries about the TDRS (node-4 frequency in Hz). */
  datatype TdrsObservation = TdrsObservation(
    dopplerCountInterval: real,
    serviceId: string,
    node4FreqHz: real,
    node4Band: int,
    dataFlag: int,
    smarId: int)

  /** The settings for a measurement: those of the observation, or for a
      simulation the adapter's own with a drawn service access. */
  function Configured(cfg: TdrsConfig, obs: Option<TdrsObservation>, draw: nat): (r: Result<TdrsConfig>)
    ensures r.Ok? <==> obs.Some? || |cfg.serviceAccessList| > 0
    ensures r.Err? ==> r.msg == EmptySimulationListError
    ensures r.Ok? ==> ValidIndex(r.value)
    ensures obs.Some? ==> (r.value.serviceAccessList == [obs.value.serviceId]
                           && r.value.dopplerCountInterval == obs.value.dopplerCountInterval
                           && r.value.node4Freq * MHz == obs.value.node4FreqHz && r.value.node4FreqBand == obs.value.node4Band
                           && r.value.dataFlag == obs.value.dataFlag && r.value.smarId == obs.value.smarId)
    ensures obs.None? && r.Ok? ==> (r.value.serviceAccessList == cfg.serviceAccessList
                                    && r.value.(serviceAccessIndex := cfg.serviceAccessIndex) == cfg)
  {
    match obs
    case Some(o) =>
      Ok(cfg.(serviceAccessList := [o.serviceId], serviceAccessIndex := 0, dopplerCountInterval := o.dopplerCountInterval,
              node4Freq := o.node4FreqHz / MHz, node4FreqBand := o.node4Band, dataFlag := o.dataFlag, smarId := o.smarId))
    case None =>
      if |cfg.serviceAccessList| == 0 then Err(EmptySimulationListError)
      else Ok(cfg.(serviceAccessIndex := draw % |cfg.serviceAccessList|))
  }

  function ServiceOf(cfg: TdrsConfig): string
    requires ValidIndex(cfg)
  {
    cfg.serviceAccessList[cfg.serviceAccessIndex]
  }

  /** The measurement record: the range record with the TDRS fields. */
  datatype DopplerData = DopplerData(
    base: R.MeasurementData,
    node4Freq: real,
    node4Band: int,
    dataFlag: int,
    smarId: int,
    serviceId: string,
    countInterval: real)

  /** The record once the TDRS fields of the settings are written. */
  function Tagged(d: DopplerData, cfg: TdrsConfig): DopplerData
    requires ValidIndex(cfg)
  {
    d.(node4Freq := cfg.node4Freq * MHz, node4Band := cfg.node4FreqBand, dataFlag := cfg.dataFlag,
       smarId := cfg.smarId, serviceId := ServiceOf(cfg))
  }

  /** The record of an epoch off the ephemerides. */
  function MarkedGap(m: R.MeasurementData): R.MeasurementData
  {
    m.(isFeasible := false, unfeasibleReason := "EGAP")
  }

  // ---------------------------------------------------------------------
  // The walk over the signal paths
  // ---------------------------------------------------------------------

  /** What the paths supply: the End-Short, Start-Long and Start-Short
      records, the four multiplier factors, the id of each path's TDRS node
      and one noise draw per path. */
  datatype PathInputs = PathInputs(
    es: R.MeasurementData,
    sl: R.MeasurementData,
    ss: R.MeasurementData,
    factors: Factors,
    nodeIds: seq<string>,
    noise: seq<real>,
    passBias: real)

  datatype PathContext = PathContext(
    cfg: TdrsConfig,
    measurementType: string,
    settings: R.ErrorSettings,
    biases: seq<real>,
    inp: PathInputs)

  function PathCount(ctx: PathContext): nat { |ctx.inp.nodeIds| }

  /** The inputs agree on the number of paths. */
  predicate Fits(ctx: PathContext)
  {
    var n := PathCount(ctx);
    && ValidIndex(ctx.cfg)
    && |ctx.inp.es.value| >= n && |ctx.inp.es.correction| >= n
    && |ctx.inp.sl.value| >= n && |ctx.inp.sl.correction| >= n
    && |ctx.inp.ss.value| >= n && |ctx.inp.ss.correction| >= n
    && |ctx.inp.noise| == n
    && BiasesCover(ctx.measurementType == DopplerType, ctx.settings, ctx.biases, n)
  }

  /** The record holds one value and one correction per path. */
  predicate Sized(ctx: PathContext, m: R.MeasurementData)
  {
    |m.value| == PathCount(ctx) && |m.correction| == PathCount(ctx)
  }

  /** The state the walk updates: the record and the multipliers. */
  datatype DopplerState = DopplerState(d: DopplerData, mult: Multipliers)

  /** The multipliers of a path with the given TDRS id, or the failure
      the path meets: no pilot frequency, a zero count interval or a zero
      multiplier factor. */
  function PathMultipliers(ctx: PathContext, tdrsId: string): (r: Result<Multipliers>)
    requires ValidIndex(ctx.cfg)
    ensures r.Ok? ==> NonZero(ctx.inp.factors)
  {
    var cfg := ctx.cfg;
    var pilot :- PilotFrequency(ServiceOf(cfg), cfg.node4FreqBand, cfg.node4Freq, tdrsId, cfg.smarId, cfg.dataFlag);
    var mult :- DopplerMultipliers(cfg.node4Freq, pilot, cfg.dopplerCountInterval);
    if !NonZero(ctx.inp.factors) then Err(DivisionByZero) else Ok(mult)
  }

  /** The value (or correction) of path i: the combination of the four
      paths' entries x, with noise and bias for the given reason. */
  function PathEntry(ctx: PathContext, mult: Multipliers, reason: string, i: nat,
                     el: real, es: real, sl: real, ss: real): real
    requires NonZero(ctx.inp.factors) && i < |ctx.inp.noise|
  {
    var bias := R.BiasAt(ctx.settings, ctx.inp.passBias, ctx.biases, i);
    DopplerApplied(ctx.measurementType == DopplerType, ctx.settings, reason, Combine(mult, ctx.inp.factors, el, es, sl, ss), ctx.inp.noise[i], bias)
  }

  /** The record after path i with its multipliers. */
  function Advance(ctx: PathContext, st: DopplerState, i: nat, mult: Multipliers): (r: DopplerState)
    requires Fits(ctx) && Sized(ctx, st.d.base) && i < PathCount(ctx) && NonZero(ctx.inp.factors)
    ensures Sized(ctx, r.d.base)
  {
    var inp := ctx.inp;
    var m := st.d.base;
    var f := CombinedFeasibility(m, inp.es, inp.sl, inp.ss);
    var m' := WithFeasibility(m, f).(
      value := m.value[i := PathEntry(ctx, mult, f.reason, i, m.value[i], inp.es.value[i], inp.sl.value[i], inp.ss.value[i])],
      correction := m.correction[i := PathEntry(ctx, mult, f.reason, i, m.correction[i], inp.es.correction[i], inp.sl.correction[i], inp.ss.correction[i])]);
    DopplerState(Tagged(st.d, ctx.cfg).(base := m', countInterval := ctx.cfg.dopplerCountInterval), mult)
  }

  /** The multipliers of path i, or the failure it meets. */
  function PathOutcome(ctx: PathContext, i: nat): Result<Multipliers>
    requires ValidIndex(ctx.cfg) && i < PathCount(ctx)
  {
    PathMultipliers(ctx, TdrsId(ctx.inp.nodeIds[i]))
  }

  /** How far the walk got: the state, whether it failed, and the number of
      paths it completed. */
  datatype Walked = Walked(state: DopplerState, outcome: Outcome, done: nat)

  datatype Progress = Progress(outcome: Outcome, done: nat)

  /** How far a walk over the first k paths gets: through all of them, or
      up to the first path without multipliers, failing with its message. */
  function Reached(ctx: PathContext, k: nat): (p: Progress)
    requires ValidIndex(ctx.cfg) && k <= PathCount(ctx)
    ensures p.done <= k && (p.outcome.Pass? ==> p.done == k)
    ensures forall i :: 0 <= i < p.done ==> PathOutcome(ctx, i).Ok?
  {
    if k == 0 then Progress(Pass, 0)
    else
      var p := Reached(ctx, k - 1);
      if p.outcome.Fail? then p
      else match PathOutcome(ctx, k - 1)
        case Ok(_) => Progress(Pass, k)
        case Err(e) => Progress(Fail(e), k - 1)
  }

  /** The records after the first n paths, each of which has multipliers. */
  function StateAfter(ctx: PathContext, st0: DopplerState, n: nat): (st: DopplerState)
    requires Fits(ctx) && Sized(ctx, st0.d.base) && n <= PathCount(ctx)
    requires forall i :: 0 <= i < n ==> PathOutcome(ctx, i).Ok?
    ensures Sized(ctx, st.d.base)
  {
    if n == 0 then st0
    else Advance(ctx, StateAfter(ctx, st0, n - 1), n - 1, PathOutcome(ctx, n - 1).value)
  }

  /** The walk over the first k paths, stopping at the first failure. */
  function DopplerPaths(ctx: PathContext, st0: DopplerState, k: nat): (w: Walked)
    requires Fits(ctx) && Sized(ctx, st0.d.base) && k <= PathCount(ctx)
    ensures Sized(ctx, w.state.d.base)
    ensures w.done <= k && (w.outcome.Pass? ==> w.done == k)
  {
    var p := Reached(ctx, k);
    Walked(StateAfter(ctx, st0, p.done), p.outcome, p.done)
  }

  /** Once failed, the walk stays where it stopped. */
  lemma {:induction false} FailureStays(ctx: PathContext, k: nat, n: nat)
    requires ValidIndex(ctx.cfg) && k <= n <= PathCount(ctx)
    requires Reached(ctx, k).outcome.Fail?
    ensures Reached(ctx, n) == Reached(ctx, k)
    decreases n - k
  {
    if k < n {
      FailureStays(ctx, k, n - 1);
    }
  }

  /** A walk that has passed so far and meets a path without multipliers
      ends there, with that path's message. */
  lemma WalkStepFails(ctx: PathContext, st0: DopplerState, i: nat)
    requires Fits(ctx) && Sized(ctx, st0.d.base) && i < PathCount(ctx)
    requires Reached(ctx, i) == Progress(Pass, i) && PathOutcome(ctx, i).Err?
    ensures DopplerPaths(ctx, st0, PathCount(ctx)) == Walked(StateAfter(ctx, st0, i), Fail(PathOutcome(ctx, i).msg), i)
  {
    var p := Progress(Fail(PathOutcome(ctx, i).msg), i);
    assert Reached(ctx, i + 1) == p;
    FailureStays(ctx, i + 1, PathCount(ctx));
    var w := DopplerPaths(ctx, st0, PathCount(ctx));
    assert w.done == i && w.outcome == p.outcome;
    assert w.state == StateAfter(ctx, st0, i);
  }

  /** A walk that has passed so far and meets a path with multipliers
      advances over it. */
  lemma WalkStepPasses(ctx: PathContext, st0: DopplerState, i: nat)
    requires Fits(ctx) && Sized(ctx, st0.d.base) && i < PathCount(ctx)
    requires Reached(ctx, i) == Progress(Pass, i) && PathOutcome(ctx, i).Ok?
    ensures Reached(ctx, i + 1) == Progress(Pass, i + 1)
    ensures StateAfter(ctx, st0, i + 1) == Advance(ctx, StateAfter(ctx, st0, i), i, PathOutcome(ctx, i).value)
  {
  }

  /** Path i of a walk that has passed so far: the records after it, or
      the failure that ends the walk. */
  method WalkPath(ctx: PathContext, st0: DopplerState, i: nat, st: DopplerState) returns (next: Result<DopplerState>)
    requires Fits(ctx) && Sized(ctx, st0.d.base) && i < PathCount(ctx)
    requires Reached(ctx, i) == Progress(Pass, i) && st == StateAfter(ctx, st0, i)
    ensures next.Ok? ==> Reached(ctx, i + 1) == Progress(Pass, i + 1) && next.value == StateAfter(ctx, st0, i + 1)
    ensures next.Err? ==> DopplerPaths(ctx, st0, PathCount(ctx)) == Walked(st, Fail(next.msg), i)
  {
    var tdrsId := TdrsIdSuffix(ctx.inp.nodeIds[i]);
    var mult := PathMultipliers(ctx, tdrsId);
    if mult.Err? {
      WalkStepFails(ctx, st0, i);
      return Err(mult.msg);
    }
    WalkStepPasses(ctx, st0, i);
    next := Ok(Advance(ctx, st, i, mult.value));
  }

  /** Walks the signal paths in order. */
  method WalkPaths(ctx: PathContext, st0: DopplerState) returns (w: Walked)
    requires Fits(ctx) && Sized(ctx, st0.d.base)
    ensures w == DopplerPaths(ctx, st0, PathCount(ctx))
  {
    var st := st0;
    var i := 0;
    while i < PathCount(ctx)
      invariant 0 <= i <= PathCount(ctx)
      invariant Reached(ctx, i) == Progress(Pass, i)
      invariant st == StateAfter(ctx, st0, i)
    {
      var next := WalkPath(ctx, st0, i, st);
      if next.Err? {
        return Walked(st, Fail(next.msg), i);
      }
      st := next.value;
      i := i + 1;
    }
    w := Walked(st, Pass, i);
  }

  /** Path i of a record m0 on its own: its value and correction, or the
      failure it meets. */
  function ExpectedPath(ctx: PathContext, m0: R.MeasurementData, i: nat): (r: Result<(real, real)>)
    requires Fits(ctx) && Sized(ctx, m0) && i < PathCount(ctx)
  {
    match PathMultipliers(ctx, TdrsId(ctx.inp.nodeIds[i]))
    case Err(e) => Err(e)
    case Ok(mult) =>
      var inp := ctx.inp;
      var reason := CombinedFeasibility(m0, inp.es, inp.sl, inp.ss).reason;
      Ok((PathEntry(ctx, mult, reason, i, m0.value[i], inp.es.value[i], inp.sl.value[i], inp.ss.value[i]),
          PathEntry(ctx, mult, reason, i, m0.correction[i], inp.es.correction[i], inp.sl.correction[i], inp.ss.correction[i])))
  }

  /** One step agrees with ExpectedPath when the entry it writes is still
      the original one and the feasibility is the original or the combined
      one. */
  lemma StepAgrees(ctx: PathContext, st: DopplerState, m0: R.MeasurementData, i: nat)
    requires Fits(ctx) && Sized(ctx, st.d.base) && Sized(ctx, m0) && i < PathCount(ctx)
    requires st.d.base.value[i] == m0.value[i] && st.d.base.correction[i] == m0.correction[i]
    requires FeasibilityOf(st.d.base) == FeasibilityOf(m0)
          || FeasibilityOf(st.d.base) == CombinedFeasibility(m0, ctx.inp.es, ctx.inp.sl, ctx.inp.ss)
    requires PathOutcome(ctx, i).Ok?
    ensures var m := Advance(ctx, st, i, PathOutcome(ctx, i).value).d.base;
      && ExpectedPath(ctx, m0, i) == Ok((m.value[i], m.correction[i]))
      && FeasibilityOf(m) == CombinedFeasibility(m0, ctx.inp.es, ctx.inp.sl, ctx.inp.ss)
      && (forall j :: 0 <= j < PathCount(ctx) && j != i ==>
            m.value[j] == st.d.base.value[j] && m.correction[j] == st.d.base.correction[j])
  {
    var inp := ctx.inp;
    if FeasibilityOf(st.d.base) != FeasibilityOf(m0) {
      CombinedFeasibilitySettles(m0, inp.es, inp.sl, inp.ss);
      assert WithFeasibility(m0, FeasibilityOf(st.d.base)).isFeasible == st.d.base.isFeasible;
    }
    assert CombinedFeasibility(st.d.base, inp.es, inp.sl, inp.ss) == CombinedFeasibility(m0, inp.es, inp.sl, inp.ss);
  }

  /** A path has an expected value exactly when its multipliers exist,
      and otherwise fails with their message. */
  lemma ExpectedPathFails(ctx: PathContext, m0: R.MeasurementData, i: nat)
    requires Fits(ctx) && Sized(ctx, m0) && i < PathCount(ctx)
    ensures ExpectedPath(ctx, m0, i).Ok? <==> PathOutcome(ctx, i).Ok?
    ensures ExpectedPath(ctx, m0, i).Err? ==> ExpectedPath(ctx, m0, i).msg == PathOutcome(ctx, i).msg
  {
  }

  /** The walk leaves the entries of the paths it has not reached as they
      were, and once it has completed a path the feasibility is the
      combined one. */
  lemma {:induction false} WalkKeepsLater(ctx: PathContext, st0: DopplerState, n: nat)
    requires Fits(ctx) && Sized(ctx, st0.d.base) && n <= PathCount(ctx)
    requires forall i :: 0 <= i < n ==> PathOutcome(ctx, i).Ok?
    ensures var m := StateAfter(ctx, st0, n).d.base;
      forall j :: n <= j < PathCount(ctx) ==> m.value[j] == st0.d.base.value[j] && m.correction[j] == st0.d.base.correction[j]
    ensures n > 0 ==> FeasibilityOf(StateAfter(ctx, st0, n).d.base) == CombinedFeasibility(st0.d.base, ctx.inp.es, ctx.inp.sl, ctx.inp.ss)
  {
    if n > 0 {
      WalkKeepsLater(ctx, st0, n - 1);
      StepAgrees(ctx, StateAfter(ctx, st0, n - 1), st0.d.base, n - 1);
    }
  }

  /** After n paths with multipliers, each of them holds its expected
      value. */
  lemma {:induction false} WalkPassMeaning(ctx: PathContext, st0: DopplerState, n: nat)
    requires Fits(ctx) && Sized(ctx, st0.d.base) && n <= PathCount(ctx)
    requires forall i :: 0 <= i < n ==> PathOutcome(ctx, i).Ok?
    ensures var m := StateAfter(ctx, st0, n).d.base;
      forall i :: 0 <= i < n ==> ExpectedPath(ctx, st0.d.base, i) == Ok((m.value[i], m.correction[i]))
  {
    if n > 0 {
      WalkPassMeaning(ctx, st0, n - 1);
      WalkKeepsLater(ctx, st0, n - 1);
      StepAgrees(ctx, StateAfter(ctx, st0, n - 1), st0.d.base, n - 1);
    }
  }

  /** A failed walk stopped at the first path without multipliers, with
      that path's message. */
  lemma {:induction false} WalkFailMeaning(ctx: PathContext, k: nat)
    requires ValidIndex(ctx.cfg) && k <= PathCount(ctx)
    ensures var p := Reached(ctx, k);
      p.outcome.Fail? ==> p.done < k && PathOutcome(ctx, p.done).Err? && p.outcome.msg == PathOutcome(ctx, p.done).msg
  {
    if k > 0 {
      WalkFailMeaning(ctx, k - 1);
    }
  }

  /** The walk over the paths passes exactly when every path has an
      expected value, and then holds those values; when it fails, it
      carries the message of the first path without one. */
  lemma WalkPassesIff(ctx: PathContext, st0: DopplerState)
    requires Fits(ctx) && Sized(ctx, st0.d.base)
    ensures DopplerPaths(ctx, st0, PathCount(ctx)).outcome.Pass?
        <==> forall i :: 0 <= i < PathCount(ctx) ==> ExpectedPath(ctx, st0.d.base, i).Ok?
    ensures var w := DopplerPaths(ctx, st0, PathCount(ctx));
      w.outcome.Pass? ==> forall i :: 0 <= i < PathCount(ctx) ==>
        ExpectedPath(ctx, st0.d.base, i) == Ok((w.state.d.base.value[i], w.state.d.base.correction[i]))
    ensures var w := DopplerPaths(ctx, st0, PathCount(ctx));
      w.outcome.Fail? ==>
        && w.done < PathCount(ctx)
        && ExpectedPath(ctx, st0.d.base, w.done).Err?
        && w.outcome.msg == ExpectedPath(ctx, st0.d.base, w.done).msg
  {
    var n := PathCount(ctx);
    var m0 := st0.d.base;
    WalkFailMeaning(ctx, n);
    forall i | 0 <= i < n {
      ExpectedPathFails(ctx, m0, i);
    }
    if Reached(ctx, n).outcome.Pass? {
      WalkPassMeaning(ctx, st0, n);
    }
  }

  // ---------------------------------------------------------------------
  // Derivatives
  // ---------------------------------------------------------------------

  predicate IsStateParameter(paramName: string)
  {
    paramName == "Position" || paramName == "Velocity" || paramName == "CartesianX"
  }

  /** One entry of the Doppler derivative: the multiplier-weighted sum of
      the four paths' for a state parameter, End-Long's otherwise. */
  function CombinedEntry(paramName: string, m: Multipliers, el: real, es: real, sl: real, ss: real): real
  {
    if IsStateParameter(paramName) then el * m.el + es * m.es + sl * m.sl + ss * m.ss else el
  }

  /** A state derivative is the derivative of the range changes, weighted
      like the Doppler value itself. */
  lemma StateDerivativeIsRangeChange(paramName: string, effFreq: real, pilotFreq: real, countInterval: real,
                                     el: real, es: real, sl: real, ss: real)
    requires IsStateParameter(paramName) && countInterval != 0.0
    ensures CombinedEntry(paramName, DopplerMultipliers(effFreq, pilotFreq, countInterval).value, el, es, sl, ss)
         == Combine(DopplerMultipliers(effFreq, pilotFreq, countInterval).value, Factors(1.0, 1.0, 1.0, 1.0), el, es, sl, ss)
  {
  }

  function Width(t: seq<seq<real>>): nat
    requires |t| > 0
  {
    |t[0]|
  }

  /** The four tables combine row by row: they have the same width and the
      other three at least as many rows as End-Long. */
  predicate Combinable(el: seq<seq<real>>, es: seq<seq<real>>, sl: seq<seq<real>>, ss: seq<seq<real>>)
    requires R.Rectangular(el) && R.Rectangular(es) && R.Rectangular(sl) && R.Rectangular(ss)
  {
    && Width(es) == Width(el) && Width(sl) == Width(el) && Width(ss) == Width(el)
    && |es| >= |el| && |sl| >= |el| && |ss| >= |el|
  }

  /** The message of tables that do not combine: the first path whose width
      differs, or a read past the end of a shorter table. */
  function CombineError(errs: SizeErrors, el: seq<seq<real>>, es: seq<seq<real>>, sl: seq<seq<real>>, ss: seq<seq<real>>): string
    requires R.Rectangular(el) && R.Rectangular(es) && R.Rectangular(sl) && R.Rectangular(ss)
  {
    if Width(es) != Width(el) then errs.second
    else if Width(sl) != Width(el) then errs.third
    else if Width(ss) != Width(el) then errs.fourth
    else R.RangeCheckError
  }

  /** Combines the four copied tables row by row. */
  method CombineDerivatives(errs: SizeErrors, paramName: string, m: Multipliers,
                            el: seq<seq<real>>, es: seq<seq<real>>, sl: seq<seq<real>>, ss: seq<seq<real>>)
    returns (r: Result<seq<seq<real>>>)
    requires R.Rectangular(el) && R.Rectangular(es) && R.Rectangular(sl) && R.Rectangular(ss)
    ensures r.Ok? <==> Combinable(el, es, sl, ss)
    ensures r.Err? ==> r.msg == CombineError(errs, el, es, sl, ss)
    ensures r.Ok? ==> |r.value| == |el|
    ensures r.Ok? ==> forall i :: 0 <= i < |el| ==> |r.value[i]| == Width(el)
    ensures r.Ok? ==> forall i, j :: 0 <= i < |el| && 0 <= j < Width(el) ==>
      r.value[i][j] == CombinedEntry(paramName, m, el[i][j], es[i][j], sl[i][j], ss[i][j])
  {
    var size := |el[0]|;
    var rows: seq<seq<real>> := [];
    var i := 0;
    while i < |el|
      invariant 0 <= i <= |el|
      invariant |rows| == i
      invariant i > 0 ==> Width(es) == size && Width(sl) == size && Width(ss) == size
      invariant i <= |es| && i <= |sl| && i <= |ss|
      invariant forall k :: 0 <= k < i ==> |rows[k]| == size
      invariant forall k, j :: 0 <= k < i && 0 <= j < size ==>
        rows[k][j] == CombinedEntry(paramName, m, el[k][j], es[k][j], sl[k][j], ss[k][j])
    {
      if i >= |es| {
        return Err(R.RangeCheckError);
      }
      if |es[i]| != size {
        return Err(errs.second);
      }
      if i >= |sl| {
        return Err(R.RangeCheckError);
      }
      if |sl[i]| != size {
        return Err(errs.third);
      }
      if i >= |ss| {
        return Err(R.RangeCheckError);
      }
      if |ss[i]| != size {
        return Err(errs.fourth);
      }
      var row: seq<real> := [];
      var j := 0;
      while j < size
        invariant 0 <= j <= size
        invariant |row| == j
        invariant forall q :: 0 <= q < j ==> row[q] == CombinedEntry(paramName, m, el[i][q], es[i][q], sl[i][q], ss[i][q])
      {
        row := row + [CombinedEntry(paramName, m, el[i][j], es[i][j], sl[i][j], ss[i][j])];
        j := j + 1;
      }
      rows := rows + [row];
      i := i + 1;
    }
    return Ok(rows);
  }

  /** The message of a table that does not copy. */
  function CopyError(t: seq<seq<real>>): string
  {
    if |t| == 0 then R.RangeCheckError else R.DerivativeSizeError
  }

  /** What copying four derivative tables and combining them gives: the
      copy of the first table that is not rectangular fails, in the order
      given; otherwise the tables combine as CombineDerivatives states. */
  predicate CopiedAndCombined(errs: SizeErrors, paramName: string, m: Multipliers,
                              el: seq<seq<real>>, es: seq<seq<real>>, sl: seq<seq<real>>, ss: seq<seq<real>>,
                              r: Result<seq<seq<real>>>)
  {
    && (!R.Rectangular(el) ==> r == Err(CopyError(el)))
    && (R.Rectangular(el) && !R.Rectangular(es) ==> r == Err(CopyError(es)))
    && (R.Rectangular(el) && R.Rectangular(es) && !R.Rectangular(sl) ==> r == Err(CopyError(sl)))
    && (R.Rectangular(el) && R.Rectangular(es) && R.Rectangular(sl) && !R.Rectangular(ss) ==> r == Err(CopyError(ss)))
    && (R.Rectangular(el) && R.Rectangular(es) && R.Rectangular(sl) && R.Rectangular(ss) ==>
          && (r.Ok? <==> Combinable(el, es, sl, ss))
          && (r.Err? ==> r.msg == CombineError(errs, el, es, sl, ss))
          && (r.Ok? ==> (|r.value| == |el|
              && (forall i :: 0 <= i < |el| ==> |r.value[i]| == Width(el))
              && forall i, j :: 0 <= i < |el| && 0 <= j < Width(el) ==>
                   r.value[i][j] == CombinedEntry(paramName, m, el[i][j], es[i][j], sl[i][j], ss[i][j]))))
  }

  /** Copies the four tables, each of which must be rectangular, and
      combines them. */
  method FourPathDerivatives(errs: SizeErrors, paramName: string, m: Multipliers,
                             el: seq<seq<real>>, es: seq<seq<real>>, sl: seq<seq<real>>, ss: seq<seq<real>>)
    returns (r: Result<seq<seq<real>>>)
    ensures CopiedAndCombined(errs, paramName, m, el, es, sl, ss, r)
  {
    var elCopy := R.ScaleDerivatives(el, 1.0);
    if elCopy.Err? {
      return Err(elCopy.msg);
    }
    var esCopy := R.ScaleDerivatives(es, 1.0);
    if esCopy.Err? {
      return Err(esCopy.msg);
    }
    var slCopy := R.ScaleDerivatives(sl, 1.0);
    if slCopy.Err? {
      return Err(slCopy.msg);
    }
    var ssCopy := R.ScaleDerivatives(ss, 1.0);
    if ssCopy.Err? {
      return Err(ssCopy.msg);
    }
    CopiesAreEqual(el, elCopy.value);
    CopiesAreEqual(es, esCopy.value);
    CopiesAreEqual(sl, slCopy.value);
    CopiesAreEqual(ss, ssCopy.value);
    r := CombineDerivatives(errs, paramName, m, elCopy.value, esCopy.value, slCopy.value, ssCopy.value);
  }

  /** What a derivative request supplies: the parameter's name, the type of
      the error model it belongs to (for biases), how many of the
      measurement's participants the object's name contains, the
      parameter's size, and the derivatives of the four paths (End-Long's
      being the measurement model's, at the measurement epoch for a pass
      bias). */
  datatype DerivativeRequest = DerivativeRequest(
    paramName: string,
    errorModelType: string,
    participantMatches: nat,
    parameterSize: nat,
    el: seq<seq<real>>,
    es: seq<seq<real>>,
    sl: seq<seq<real>>,
    ss: seq<seq<real>>)

  // ---------------------------------------------------------------------
  // The adapter
  // ---------------------------------------------------------------------

  /** The state a measurement changes, with the outcome. */
  datatype DopplerUpdate = DopplerUpdate(
    outcome: Outcome,
    config: TdrsConfig,
    mult: Multipliers,
    record: DopplerData,
    measurementBias: seq<real>,
    noiseSigma: seq<real>)

  /** The inputs agree with the paths wherever the walk runs. */
  predicate Ready(u: DopplerUpdate, measurementType: string, settings: R.ErrorSettings, epochValid: bool,
                  obs: Option<TdrsObservation>, draw: nat, el: Result<R.MeasurementData>, inp: PathInputs, biases: seq<real>)
  {
    epochValid && Configured(u.config, obs, draw).Ok? && el.Ok? ==>
      var ctx := PathContext(Configured(u.config, obs, draw).value, measurementType, settings, biases, inp);
      Fits(ctx) && Sized(ctx, el.value)
  }

  /** The state after a measurement from state u. An epoch off the
      ephemerides only marks the record "EGAP"; otherwise the settings are
      taken from the observation or drawn, the TDRS fields written, the
      End-Long record taken from the range adapter and the paths walked;
      the error model's biases and sigmas are taken once a path completes,
      and an epoch that fails the second check marks the record "EGAP". */
  function Calculated(u: DopplerUpdate, measurementType: string, settings: R.ErrorSettings,
                      epochValid: bool, epochStillValid: bool, obs: Option<TdrsObservation>, draw: nat,
                      el: Result<R.MeasurementData>, inp: PathInputs, biases: seq<real>, sigmas: seq<real>): DopplerUpdate
    requires Ready(u, measurementType, settings, epochValid, obs, draw, el, inp, biases)
  {
    if !epochValid then u.(outcome := Pass, record := u.record.(base := MarkedGap(u.record.base)))
    else match Configured(u.config, obs, draw)
      case Err(e) => u.(outcome := Fail(e))
      case Ok(cfg) =>
        var tagged := Tagged(u.record, cfg);
        if el.Err? then u.(outcome := Fail(el.msg), config := cfg, record := tagged)
        else
          var ctx := PathContext(cfg, measurementType, settings, biases, inp);
          var w := DopplerPaths(ctx, DopplerState(tagged.(base := el.value), u.mult), PathCount(ctx));
          var taken := measurementType == DopplerType && w.done > 0;
          var d := if w.outcome.Pass? && !epochStillValid then w.state.d.(base := MarkedGap(w.state.d.base)) else w.state.d;
          DopplerUpdate(w.outcome, cfg, w.state.mult, d,
                        if taken then biases else u.measurementBias, if taken then sigmas else u.noiseSigma)
  }

  /** The measurement computation of the adapter. */
  method Calculate(u: DopplerUpdate, measurementType: string, settings: R.ErrorSettings,
                   epochValid: bool, epochStillValid: bool, obs: Option<TdrsObservation>, draw: nat,
                   el: Result<R.MeasurementData>, inp: PathInputs, biases: seq<real>, sigmas: seq<real>)
    returns (next: DopplerUpdate)
    requires Ready(u, measurementType, settings, epochValid, obs, draw, el, inp, biases)
    ensures next == Calculated(u, measurementType, settings, epochValid, epochStillValid, obs, draw, el, inp, biases, sigmas)
  {
    next := u.(outcome := Pass);
    if !epochValid {
      next := next.(record := u.record.(base := MarkedGap(u.record.base)));
      return;
    }
    var c := Configured(u.config, obs, draw);
    if c.Err? {
      return u.(outcome := Fail(c.msg));
    }
    next := next.(config := c.value, record := Tagged(u.record, c.value));
    if el.Err? {
      return next.(outcome := Fail(el.msg));
    }
    var ctx := PathContext(c.value, measurementType, settings, biases, inp);
    var w := WalkPaths(ctx, DopplerState(next.record.(base := el.value), u.mult));
    next := next.(outcome := w.outcome, mult := w.state.mult, record := w.state.d);
    if measurementType == DopplerType && w.done > 0 {
      next := next.(measurementBias := biases, noiseSigma := sigmas);
    }
    if w.outcome.Pass? && !epochStillValid {
      next := next.(record := next.record.(base := MarkedGap(next.record.base)));
    }
  }

  datatype RealId = DopplerCountIntervalId | Node4FrequencyId
  datatype IntegerId = Node4BandId | SmarIdId | DataFlagId
  datatype BooleanId = AddNoiseId | OtherBooleanId(id: int)

  /** The boolean settings of one path adapter. */
  datatype PathFlags = PathFlags(addNoise: bool, others: map<int, bool>)

  function SetFlag(p: PathFlags, id: BooleanId, value: bool): PathFlags
  {
    match id
    case AddNoiseId => p.(addNoise := value)
    case OtherBooleanId(k) => p.(others := p.others[k := value])
  }

  const InitialRecord := DopplerData(R.MeasurementData([], [], false, "", 90.0, 0.0), 0.0, 0, 0, 0, "", 0.0)

  class BRTSDopplerAdapter {
    var instanceName: string
    var typeName: string
    var measurementType: string
    var config: TdrsConfig
    var settings: R.ErrorSettings
    var otherFlags: map<int, bool>
    /** The boolean settings of the End-Short, Start-Long and Start-Short adapters. */
    var esFlags: PathFlags
    var slFlags: PathFlags
    var ssFlags: PathFlags
    var measurementBias: seq<real>
    var noiseSigma: seq<real>
    /** The multipliers of the last measurement. */
    var mult: Multipliers
    /** Whether the measurement model the adapter reads has been set. */
    var hasCalcData: bool
    var cMeasurement: DopplerData

    constructor (name: string, measType: string)
      ensures instanceName == name && typeName == DopplerType && measurementType == measType
      ensures config.serviceAccessList == [] && config.dopplerCountInterval == 1.0 && config.node4Freq == 2000.0
      ensures config.node4FreqBand == 1 && config.smarId == 0 && config.dataFlag == 0
      ensures settings == R.ErrorSettings(false, false, false, false) && otherFlags == map[]
      ensures esFlags == slFlags == ssFlags == PathFlags(false, map[])
      ensures measurementBias == [] && noiseSigma == [] && mult == Multipliers(0.0, 0.0, 0.0, 0.0)
      ensures !hasCalcData && cMeasurement == InitialRecord
    {
      instanceName, typeName, measurementType := name, DopplerType, measType;
      config := TdrsConfig([], 0, 1.0, 2000.0, 1, 0, 0);
      settings := R.ErrorSettings(false, false, false, false);
      otherFlags := map[];
      esFlags, slFlags, ssFlags := PathFlags(false, map[]), PathFlags(false, map[]), PathFlags(false, map[]);
      measurementBias, noiseSigma := [], [];
      mult := Multipliers(0.0, 0.0, 0.0, 0.0);
      hasCalcData := false;
      cMeasurement := InitialRecord;
    }

    /** Sets the service access at index: inside the list it overwrites,
        just past its end it appends, elsewhere it fails. */
    method SetServiceAccess(index: int, value: string) returns (r: Outcome)
      modifies this
      ensures r.Pass? <==> 0 <= index <= |old(config.serviceAccessList)|
      ensures r.Fail? ==> r.msg == SetIndexError && config == old(config)
      ensures r.Pass? ==> config == old(config).(serviceAccessList := SetAt(old(config.serviceAccessList), index, value).value)
      ensures instanceName == old(instanceName) && typeName == old(typeName) && measurementType == old(measurementType)
      ensures settings == old(settings) && otherFlags == old(otherFlags)
      ensures esFlags == old(esFlags) && slFlags == old(slFlags) && ssFlags == old(ssFlags)
      ensures measurementBias == old(measurementBias) && noiseSigma == old(noiseSigma) && mult == old(mult)
      ensures hasCalcData == old(hasCalcData) && cMeasurement == old(cMeasurement)
    {
      var l := SetAt(config.serviceAccessList, index, value);
      SetAtMeaning(config.serviceAccessList, index, value);
      if l.Err? {
        return Fail(l.msg);
      }
      config := config.(serviceAccessList := l.value);
      return Pass;
    }

    /** The service access at index, or the out-of-bound message. */
    method GetServiceAccess(index: int) returns (r: Result<string>)
      ensures r == GetAt(config.serviceAccessList, index)
      ensures r.Ok? <==> 0 <= index < |config.serviceAccessList|
    {
      if 0 <= index && index < |config.serviceAccessList| {
        return Ok(config.serviceAccessList[index]);
      }
      return Err(GetIndexError(index, |config.serviceAccessList|));
    }

    /** Sets the count interval or the node-4 frequency; neither takes a
        value that is not positive. */
    method SetRealParameter(id: RealId, value: real) returns (r: Result<real>)
      modifies this
      ensures r.Ok? <==> value > 0.0
      ensures r.Ok? ==> r.value == value
      ensures r.Err? ==> r.msg == (if id == DopplerCountIntervalId then CountIntervalError else Node4FrequencyError)
      ensures r.Err? ==> config == old(config)
      ensures r.Ok? && id == DopplerCountIntervalId ==> config == old(config).(dopplerCountInterval := value)
      ensures r.Ok? && id == Node4FrequencyId ==> config == old(config).(node4Freq := value)
      ensures instanceName == old(instanceName) && typeName == old(typeName) && measurementType == old(measurementType)
      ensures settings == old(settings) && otherFlags == old(otherFlags)
      ensures esFlags == old(esFlags) && slFlags == old(slFlags) && ssFlags == old(ssFlags)
      ensures measurementBias == old(measurementBias) && noiseSigma == old(noiseSigma) && mult == old(mult)
      ensures hasCalcData == old(hasCalcData) && cMeasurement == old(cMeasurement)
    {
      if id == DopplerCountIntervalId {
        if value <= 0.0 {
          return Err(CountIntervalError);
        }
        config := config.(dopplerCountInterval := value);
        return Ok(config.dopplerCountInterval);
      }
      if value <= 0.0 {
        return Err(Node4FrequencyError);
      }
      config := config.(node4Freq := value);
      return Ok(config.node4Freq);
    }

    /** Sets the node-4 band, the SMA receiver id or the data flag, unchecked;
        the returned "true" is the integer 1. */
    method SetIntegerParameter(id: IntegerId, value: int) returns (r: int)
      modifies this
      ensures r == 1
      ensures id == Node4BandId ==> config == old(config).(node4FreqBand := value)
      ensures id == SmarIdId ==> config == old(config).(smarId := value)
      ensures id == DataFlagId ==> config == old(config).(dataFlag := value)
      ensures instanceName == old(instanceName) && typeName == old(typeName) && measurementType == old(measurementType)
      ensures settings == old(settings) && otherFlags == old(otherFlags)
      ensures esFlags == old(esFlags) && slFlags == old(slFlags) && ssFlags == old(ssFlags)
      ensures measurementBias == old(measurementBias) && noiseSigma == old(noiseSigma) && mult == old(mult)
      ensures hasCalcData == old(hasCalcData) && cMeasurement == old(cMeasurement)
    {
      match id {
        case Node4BandId => config := config.(node4FreqBand := value);
        case SmarIdId => config := config.(smarId := value);
        case DataFlagId => config := config.(dataFlag := value);
      }
      return 1;
    }

    /** Sets a boolean setting here and on the three path adapters, except
        that the path adapters never take AddNoise: they are set to false. */
    method SetBooleanParameter(id: BooleanId, value: bool)
      modifies this
      ensures var pathValue := if id == AddNoiseId then false else value;
        esFlags == SetFlag(old(esFlags), id, pathValue) && slFlags == SetFlag(old(slFlags), id, pathValue)
        && ssFlags == SetFlag(old(ssFlags), id, pathValue)
      ensures id == AddNoiseId ==> settings == old(settings).(addNoise := value) && otherFlags == old(otherFlags)
      ensures id.OtherBooleanId? ==> settings == old(settings) && otherFlags == old(otherFlags)[id.id := value]
      ensures id == AddNoiseId ==> !esFlags.addNoise && !slFlags.addNoise && !ssFlags.addNoise
      ensures instanceName == old(instanceName) && typeName == old(typeName) && measurementType == old(measurementType)
      ensures config == old(config)
      ensures measurementBias == old(measurementBias) && noiseSigma == old(noiseSigma) && mult == old(mult)
      ensures hasCalcData == old(hasCalcData) && cMeasurement == old(cMeasurement)
    {
      if id == AddNoiseId {
        esFlags := SetFlag(esFlags, id, false);
        slFlags := SetFlag(slFlags, id, false);
        ssFlags := SetFlag(ssFlags, id, false);
      } else {
        esFlags := SetFlag(esFlags, id, value);
        slFlags := SetFlag(slFlags, id, value);
        ssFlags := SetFlag(ssFlags, id, value);
      }
      match id {
        case AddNoiseId => settings := settings.(addNoise := value);
        case OtherBooleanId(k) => otherFlags := otherFlags[k := value];
      }
    }

    /** Initializes after the range adapter (baseReady) and the three path
        adapters (esReady, slReady, ssReady): the service index goes back
        to 0, and success needs every path adapter. */
    method Initialize(baseReady: bool, esReady: bool, slReady: bool, ssReady: bool) returns (r: bool)
      modifies this
      ensures r <==> baseReady && esReady && slReady && ssReady
      ensures config == if baseReady then old(config).(serviceAccessIndex := 0) else old(config)
      ensures instanceName == old(instanceName) && typeName == old(typeName) && measurementType == old(measurementType)
      ensures settings == old(settings) && otherFlags == old(otherFlags)
      ensures esFlags == old(esFlags) && slFlags == old(slFlags) && ssFlags == old(ssFlags)
      ensures measurementBias == old(measurementBias) && noiseSigma == old(noiseSigma) && mult == old(mult)
      ensures hasCalcData == old(hasCalcData) && cMeasurement == old(cMeasurement)
    {
      r := false;
      if baseReady {
        config := config.(serviceAccessIndex := 0);
        r := slReady;
        r := ssReady && r;
        r := esReady && r;
      }
    }

    /** The adapter's state that a measurement may change. */
    function Current(): DopplerUpdate
      reads this
    {
      DopplerUpdate(Pass, config, mult, cMeasurement, measurementBias, noiseSigma)
    }

    /** Computes the Doppler measurement. epochValid and epochStillValid are
        the epoch checks before and after the computation, obs the
        observation (none when simulating) and draw the random draw that
        picks a service access; el is the End-Long range record the range
        adapter computes (or its failure), inp the other paths' records and
        the noise, biases and sigmas what the error model supplies. */
    method CalculateMeasurement(epochValid: bool, epochStillValid: bool, obs: Option<TdrsObservation>, draw: nat,
                                el: Result<R.MeasurementData>, inp: PathInputs, biases: seq<real>, sigmas: seq<real>)
      returns (r: Outcome)
      requires Ready(Current(), measurementType, settings, epochValid, obs, draw, el, inp, biases)
      modifies this
      ensures var u := Calculated(old(Current()), old(measurementType), old(settings), epochValid, epochStillValid, obs, draw, el, inp, biases, sigmas);
        && r == u.outcome && config == u.config && mult == u.mult && cMeasurement == u.record
        && measurementBias == u.measurementBias && noiseSigma == u.noiseSigma
      ensures instanceName == old(instanceName) && typeName == old(typeName) && measurementType == old(measurementType)
      ensures settings == old(settings) && otherFlags == old(otherFlags)
      ensures esFlags == old(esFlags) && slFlags == old(slFlags) && ssFlags == old(ssFlags)
      ensures hasCalcData == old(hasCalcData)
    {
      var u := Calculate(Current(), measurementType, settings, epochValid, epochStillValid, obs, draw, el, inp, biases, sigmas);
      config, mult, cMeasurement := u.config, u.mult, u.record;
      measurementBias, noiseSigma := u.measurementBias, u.noiseSigma;
      r := u.outcome;
    }

    /** The derivatives of the measurement with respect to a parameter. A
        bias of a BRTS Doppler error model shared by more than one
        participant, and a pass bias of such a model, take the End-Long
        derivatives; any other bias a row of zeros. Any other parameter
        copies the four tables, each of which must be rectangular, and
        combines them with the last multipliers. */
    method CalculateMeasurementDerivatives(req: DerivativeRequest) returns (r: Result<seq<seq<real>>>)
      ensures !hasCalcData ==> r == Err(R.DerivativesNotSetError(instanceName))
      ensures hasCalcData && req.paramName == "Bias" ==>
        r == Ok(if req.errorModelType == DopplerType && req.participantMatches > 1 then req.el else R.ZeroRow(req.parameterSize))
      ensures hasCalcData && req.paramName == "PassBiases" ==>
        r == Ok(if req.errorModelType == DopplerType then req.el else R.ZeroRow(req.parameterSize))
      ensures hasCalcData && req.paramName != "Bias" && req.paramName != "PassBiases" ==>
        CopiedAndCombined(PathSizeErrors, req.paramName, mult, req.el, req.es, req.sl, req.ss, r)
    {
      if !hasCalcData {
        return Err(R.DerivativesNotSetError(instanceName));
      }
      if req.paramName == "Bias" {
        if req.errorModelType == DopplerType && req.participantMatches > 1 {
          return Ok(req.el);
        }
        return Ok(R.ZeroRow(req.parameterSize));
      } else if req.paramName == "PassBiases" {
        if req.errorModelType == DopplerType {
          return Ok(req.el);
        }
        return Ok(R.ZeroRow(req.parameterSize));
      }
      r := FourPathDerivatives(PathSizeErrors, req.paramName, mult, req.el, req.es, req.sl, req.ss);
    }
  }

  /** A table copied entry by entry is the table. */
  lemma CopiesAreEqual(t: seq<seq<real>>, copy: seq<seq<real>>)
    requires |copy| == |t|
    requires forall i :: 0 <= i < |t| ==> |copy[i]| == |t[i]|
    requires forall i, j :: 0 <= i < |t| && 0 <= j < |t[i]| ==> copy[i][j] == t[i][j] * 1.0
    ensures copy == t
  {
    forall i | 0 <= i < |t|
      ensures copy[i] == t[i]
    {
      assert forall j :: 0 <= j < |t[i]| ==> copy[i][j] == t[i][j];
    }
  }
}
