/** The TDRS differenced one-way Doppler (DOWD) adapter. It owns two TDRS
    three-legged return Doppler adapters, one through the comparison TDRS
    and one through the reference TDRS, keeps a copy of each one's TDRS
    settings, and reports the comparison Doppler minus the reference
    Doppler, path by path, with its own noise and bias added afterwards. */
module TDRSDOWDModel {
  import opened Common
  import opened TdrsServiceAccess
  import R = BRTSRangeAdapterModel
  import D = BRTSDopplerAdapterModel
  import T = TDRS3LReturnDopplerModel

  const DowdType := "SN_DOWD"

  /** The fixed weights of the two sub-measurements. */
  const CompMultiplier: real := 1.0
  const RefMultiplier: real := -1.0

  /** The two sub-measurements: through the comparison TDRS and through the
      reference TDRS. */
  datatype Leg = Comp | Ref

  const CompCountIntervalError :=
    "Error: Doppler count interval for comparison TDRS one way doppler measurement has a nonpositive value\n"
  const RefCountIntervalError :=
    "Error: Doppler count interval for reference TDRS One Way Doppler measurement has a nonpositive value\n"
  const CompNode4FrequencyError :=
    "Error: TDRS node 4 frequency for comparison TDRS One Way Doppler measurement has a nonpositive number\n"
  const RefNode4FrequencyError :=
    "Error: TDRS node 4 frequency for reference TDRS One Way Doppler measurement has a nonpositive number\n"

  function CountIntervalError(leg: Leg): string
  {
    if leg == Comp then CompCountIntervalError else RefCountIntervalError
  }

  function Node4FrequencyError(leg: Leg): string
  {
    if leg == Comp then CompNode4FrequencyError else RefNode4FrequencyError
  }

  /** The messages of a simulation without service accesses; the
      reference one lacks the space before "is". */
  const CompEmptyListError :=
    "Error: Simulation TDRS service access list for comparison TDRS One Way Doppler measurement is empty. In GMAT script, it needs to add service access to the list.\n"
  const RefEmptyListError :=
    "Error: Simulation TDRS service access list for reference TDRS One Way Doppler measurementis empty. In GMAT script, it needs to add service access to the list.\n"

  function EmptyListError(leg: Leg): string
  {
    if leg == Comp then CompEmptyListError else RefEmptyListError
  }

  const RefSizeError := "Derivative data size for reference TDRS One Way Doppler measurement is a different size than expected"

  /** A read past the end of a sub-measurement's entries or rows, which the
      source leaves undefined. */
  const PathIndexError := "vector index out of range"

  // ---------------------------------------------------------------------
  // Handing the service-access lists to the sub-adapters
  // ---------------------------------------------------------------------

  /** The list dst after the names of src are set at indices 0, 1, ... in
      turn: src, followed by whatever dst held beyond it. */
  function Overlaid(src: seq<string>, dst: seq<string>): (r: seq<string>)
    ensures |r| == if |src| >= |dst| then |src| else |dst|
    ensures forall j :: 0 <= j < |src| ==> r[j] == src[j]
    ensures forall j :: |src| <= j < |dst| ==> r[j] == dst[j]
  {
    if |src| >= |dst| then src else src + dst[|src|..]
  }

  /** Setting the next name of src extends the overlay by one name, and it
      always succeeds: the index is never past the list's end. */
  lemma {:induction false} OverlayStep(src: seq<string>, dst: seq<string>, i: nat)
    requires i < |src|
    ensures SetAt(Overlaid(src[..i], dst), i, src[i]).Ok?
    ensures SetAt(Overlaid(src[..i], dst), i, src[i]).value == Overlaid(src[..i + 1], dst)
  {
    var l := Overlaid(src[..i], dst);
    var l' := SetAt(l, i, src[i]).value;
    var want := Overlaid(src[..i + 1], dst);
    assert |l'| == |want|;
    forall j | 0 <= j < |want|
      ensures l'[j] == want[j]
    {
      if j < i {
        assert l'[j] == l[j] == src[..i][j] == src[j];
      }
    }
  }

  /** Hands the names of src to a sub-adapter one index at a time. */
  method CopyServiceAccesses(src: seq<string>, a: T.TDRS3LReturnDopplerAdapter)
    modifies a
    ensures a.config == old(a.config).(serviceAccessList := Overlaid(src, old(a.config.serviceAccessList)))
    ensures a.settings == old(a.settings) && a.st == old(a.st) && a.measurementType == old(a.measurementType)
    ensures a.measurementBias == old(a.measurementBias) && a.noiseSigma == old(a.noiseSigma)
  {
    var i := 0;
    while i < |src|
      invariant 0 <= i <= |src|
      invariant a.config == old(a.config).(serviceAccessList := Overlaid(src[..i], old(a.config.serviceAccessList)))
      invariant a.settings == old(a.settings) && a.st == old(a.st) && a.measurementType == old(a.measurementType)
      invariant a.measurementBias == old(a.measurementBias) && a.noiseSigma == old(a.noiseSigma)
    {
      OverlayStep(src, old(a.config.serviceAccessList), i);
      var _ := a.SetServiceAccess(i, src[i]);
      i := i + 1;
    }
    assert src[..i] == src;
  }

  // ---------------------------------------------------------------------
  // The configuration
  // ---------------------------------------------------------------------

  /** What an observation carries about the two TDRSs: the comparison
      TDRS's fields and the reference TDRS's. */
  datatype DowdObservation = DowdObservation(comp: D.TdrsObservation, ref: D.TdrsObservation)

  function LegObservation(obs: Option<DowdObservation>, leg: Leg): Option<D.TdrsObservation>
  {
    match obs
    case None => None
    case Some(o) => Some(if leg == Comp then o.comp else o.ref)
  }

  /** The settings an observation's fields give: its service access, count
      interval, node-4 frequency (Hz to MHz) and band, data flag and SMA
      receiver id. */
  function Observed(cfg: D.TdrsConfig, o: D.TdrsObservation): D.TdrsConfig
  {
    cfg.(serviceAccessList := [o.serviceId], serviceAccessIndex := 0, dopplerCountInterval := o.dopplerCountInterval,
         node4Freq := o.node4FreqHz / D.MHz, node4FreqBand := o.node4Band, dataFlag := o.dataFlag, smarId := o.smarId)
  }

  /** The two settings for a measurement: an observation sets each from its
      own fields, a simulation draws a service access from each list; an
      empty list fails, the comparison list's first. */
  function ConfiguredPair(comp: D.TdrsConfig, ref: D.TdrsConfig, obs: Option<DowdObservation>, drawComp: nat, drawRef: nat)
    : (r: Result<(D.TdrsConfig, D.TdrsConfig)>)
    ensures r.Ok? <==> obs.Some? || (|comp.serviceAccessList| > 0 && |ref.serviceAccessList| > 0)
    ensures r.Err? ==> r.msg == EmptyListError(if |comp.serviceAccessList| == 0 then Comp else Ref)
    ensures r.Ok? ==> D.ValidIndex(r.value.0) && D.ValidIndex(r.value.1)
  {
    match obs
    case Some(o) => Ok((Observed(comp, o.comp), Observed(ref, o.ref)))
    case None =>
      if |comp.serviceAccessList| == 0 then Err(EmptyListError(Comp))
      else if |ref.serviceAccessList| == 0 then Err(EmptyListError(Ref))
      else Ok((comp.(serviceAccessIndex := drawComp % |comp.serviceAccessList|),
               ref.(serviceAccessIndex := drawRef % |ref.serviceAccessList|)))
  }

  /** Each TDRS's settings follow the BRTS Doppler rule on their own: the
      pair differs only in its messages and in checking the comparison list
      first. */
  lemma ConfiguredPairIsPerLeg(comp: D.TdrsConfig, ref: D.TdrsConfig, obs: Option<DowdObservation>, drawComp: nat, drawRef: nat)
    ensures var r := ConfiguredPair(comp, ref, obs, drawComp, drawRef);
      r.Ok? ==> r.value == (D.Configured(comp, LegObservation(obs, Comp), drawComp).value,
                            D.Configured(ref, LegObservation(obs, Ref), drawRef).value)
  {
    match obs {
      case Some(o) =>
        assert Observed(comp, o.comp) == D.Configured(comp, Some(o.comp), drawComp).value;
        assert Observed(ref, o.ref) == D.Configured(ref, Some(o.ref), drawRef).value;
      case None =>
    }
  }

  // ---------------------------------------------------------------------
  // The measurement record
  // ---------------------------------------------------------------------

  /** The TDRS fields the record keeps for one sub-measurement. */
  datatype TdrsFields = TdrsFields(
    node4Freq: real,
    node4Band: int,
    dataFlag: int,
    smarId: int,
    serviceId: string,
    countInterval: real)

  /** The record: the range record with the fields of both TDRSs. */
  datatype DowdData = DowdData(base: R.MeasurementData, comp: TdrsFields, ref: TdrsFields)

  /** The fields once the settings are written (node-4 frequency in Hz). */
  function Stamped(f: TdrsFields, cfg: D.TdrsConfig): TdrsFields
    requires D.ValidIndex(cfg)
  {
    f.(node4Freq := cfg.node4Freq * D.MHz, node4Band := cfg.node4FreqBand, dataFlag := cfg.dataFlag,
       smarId := cfg.smarId, serviceId := D.ServiceOf(cfg))
  }

  /** The fields once the sub-measurement's record is read back: all but
      the data flag come from it. */
  function Reported(f: TdrsFields, d: D.DopplerData): TdrsFields
  {
    f.(node4Freq := d.node4Freq, node4Band := d.node4Band, smarId := d.smarId,
       serviceId := d.serviceId, countInterval := d.countInterval)
  }

  // ---------------------------------------------------------------------
  // The differences
  // ---------------------------------------------------------------------

  /** The feasibility of the measurement: the comparison record's when it
      is infeasible, else the reference record's when that is, else
      feasible with reason "N" and the comparison's feasibility value. */
  function DowdFeasibility(comp: R.MeasurementData, ref: R.MeasurementData): (r: R.Feasibility)
    ensures r.isFeasible <==> comp.isFeasible && ref.isFeasible
    ensures !comp.isFeasible ==> r == D.FeasibilityOf(comp)
    ensures r.isFeasible ==> r.reason == "N" && r.value == comp.feasibilityValue
  {
    if !comp.isFeasible then D.FeasibilityOf(comp)
    else if !ref.isFeasible then D.FeasibilityOf(ref)
    else R.Feasibility(true, "N", comp.feasibilityValue)
  }

  /** The precedence is a first-match scan of comparison, reference over
      the default "feasible, N". */
  lemma DowdFeasibilityIsFirstInfeasible(comp: R.MeasurementData, ref: R.MeasurementData)
    ensures DowdFeasibility(comp, ref) == D.FirstInfeasible([comp, ref], R.Feasibility(true, "N", comp.feasibilityValue))
  {
    var fb := R.Feasibility(true, "N", comp.feasibilityValue);
    assert [ref][1..] == [];
    assert D.FirstInfeasible([ref], fb) == if !ref.isFeasible then D.FeasibilityOf(ref) else fb;
    assert [comp, ref][1..] == [ref];
  }

  /** What the difference of the paths reads: the measurement type and
      error settings, the biases, the two sub-records, a noise draw per
      signal path, and the pass bias. */
  datatype DowdContext = DowdContext(
    measurementType: string,
    settings: R.ErrorSettings,
    biases: seq<real>,
    comp: R.MeasurementData,
    ref: R.MeasurementData,
    noise: seq<real>,
    passBias: real)

  function PathCount(ctx: DowdContext): nat { |ctx.noise| }

  /** Both sub-records hold an entry for every path. */
  predicate Covered(ctx: DowdContext)
  {
    var n := PathCount(ctx);
    |ctx.comp.value| >= n && |ctx.comp.correction| >= n && |ctx.ref.value| >= n && |ctx.ref.correction| >= n
  }

  /** The comparison entry minus the reference entry of path i. */
  function PathDifference(ctx: DowdContext, i: nat, ofCorrection: bool): real
    requires Covered(ctx) && i < PathCount(ctx)
  {
    CompMultiplier * T.Entries(ctx.comp, ofCorrection)[i] + RefMultiplier * T.Entries(ctx.ref, ofCorrection)[i]
  }

  /** The entry of path i with the adapter's own noise and bias. */
  function PathEntry(ctx: DowdContext, i: nat, ofCorrection: bool): real
    requires Covered(ctx) && i < PathCount(ctx)
  {
    D.DopplerApplied(ctx.measurementType == DowdType, ctx.settings, DowdFeasibility(ctx.comp, ctx.ref).reason,
                     PathDifference(ctx, i, ofCorrection), ctx.noise[i], R.BiasAt(ctx.settings, ctx.passBias, ctx.biases, i))
  }

  /** The entries of the first k paths, in path order. */
  function PathEntries(ctx: DowdContext, k: nat, ofCorrection: bool): (r: seq<real>)
    requires Covered(ctx) && k <= PathCount(ctx)
    ensures |r| == k
    ensures forall i :: 0 <= i < k ==> r[i] == PathEntry(ctx, i, ofCorrection)
  {
    if k == 0 then [] else PathEntries(ctx, k - 1, ofCorrection) + [PathEntry(ctx, k - 1, ofCorrection)]
  }

  /** The record after the first k paths from a record m0 without entries:
      with a path done it holds the paths' entries and the measurement's
      feasibility. */
  function RecordAfter(ctx: DowdContext, m0: R.MeasurementData, k: nat): R.MeasurementData
    requires Covered(ctx) && k <= PathCount(ctx)
  {
    if k == 0 then m0
    else D.WithFeasibility(m0, DowdFeasibility(ctx.comp, ctx.ref)).(
      value := PathEntries(ctx, k, false), correction := PathEntries(ctx, k, true))
  }

  /** Walks the signal paths in order, appending each path's difference. */
  method PushDifferences(ctx: DowdContext, m0: R.MeasurementData) returns (m: R.MeasurementData)
    requires Covered(ctx) && m0.value == [] && m0.correction == []
    ensures m == RecordAfter(ctx, m0, PathCount(ctx))
  {
    m := m0;
    var i := 0;
    while i < PathCount(ctx)
      invariant 0 <= i <= PathCount(ctx)
      invariant m == RecordAfter(ctx, m0, i)
      invariant m.value == PathEntries(ctx, i, false) && m.correction == PathEntries(ctx, i, true)
    {
      var v := CompMultiplier * ctx.comp.value[i] + RefMultiplier * ctx.ref.value[i];
      var c := CompMultiplier * ctx.comp.correction[i] + RefMultiplier * ctx.ref.correction[i];
      var f := DowdFeasibility(ctx.comp, ctx.ref);
      var reason := f.reason;
      var bias := R.BiasAt(ctx.settings, ctx.passBias, ctx.biases, i);
      m := D.WithFeasibility(m, f).(
        value := m.value + [D.DopplerApplied(ctx.measurementType == DowdType, ctx.settings, reason, v, ctx.noise[i], bias)],
        correction := m.correction + [D.DopplerApplied(ctx.measurementType == DowdType, ctx.settings, reason, c, ctx.noise[i], bias)]);
      i := i + 1;
    }
  }

  /** After the walk every path's value minus its correction is the
      comparison's minus the reference's, since noise and bias go into
      both; without them (another measurement type, or range only) the
      value is the comparison value minus the reference value. */
  lemma DifferenceMeaning(ctx: DowdContext, m0: R.MeasurementData)
    requires Covered(ctx)
    ensures var m := RecordAfter(ctx, m0, PathCount(ctx));
      PathCount(ctx) > 0 ==>
        && |m.value| == PathCount(ctx) && |m.correction| == PathCount(ctx)
        && D.FeasibilityOf(m) == DowdFeasibility(ctx.comp, ctx.ref)
        && forall i :: 0 <= i < PathCount(ctx) ==>
             && m.value[i] - m.correction[i]
                == (ctx.comp.value[i] - ctx.comp.correction[i]) - (ctx.ref.value[i] - ctx.ref.correction[i])
             && (ctx.measurementType != DowdType || ctx.settings.rangeOnly ==>
                   m.value[i] == ctx.comp.value[i] - ctx.ref.value[i])
  {
    var n := PathCount(ctx);
    if n > 0 {
      var m := RecordAfter(ctx, m0, n);
      forall i | 0 <= i < n
        ensures m.value[i] - m.correction[i]
                == (ctx.comp.value[i] - ctx.comp.correction[i]) - (ctx.ref.value[i] - ctx.ref.correction[i])
        ensures ctx.measurementType != DowdType || ctx.settings.rangeOnly ==> m.value[i] == ctx.comp.value[i] - ctx.ref.value[i]
      {
        D.DopplerAppliedKeepsDifference(ctx.measurementType == DowdType, ctx.settings, DowdFeasibility(ctx.comp, ctx.ref).reason,
                                        PathDifference(ctx, i, false), PathDifference(ctx, i, true),
                                        ctx.noise[i], R.BiasAt(ctx.settings, ctx.passBias, ctx.biases, i));
      }
    }
  }

  // ---------------------------------------------------------------------
  // The measurement
  // ---------------------------------------------------------------------

  /** What one sub-adapter's computation reads besides its own state: its
      epoch checks, its random draw and the inputs of its paths. */
  datatype LegInputs = LegInputs(
    epochValid: bool,
    epochStillValid: bool,
    draw: nat,
    esc: Result<R.MeasurementData>,
    inp: T.ReturnInputs,
    biases: seq<real>,
    sigmas: seq<real>)

  predicate LegReady(u: T.ReturnUpdate, measurementType: string, s: R.ErrorSettings, obs: Option<D.TdrsObservation>, li: LegInputs)
  {
    T.Ready(u, measurementType, s, li.epochValid, obs, li.draw, li.esc, li.inp, li.biases)
  }

  /** The sub-adapter's state after its computation. */
  function LegUpdate(u: T.ReturnUpdate, measurementType: string, s: R.ErrorSettings, obs: Option<D.TdrsObservation>, li: LegInputs)
    : T.ReturnUpdate
    requires LegReady(u, measurementType, s, obs, li)
  {
    T.Calculated(u, measurementType, s, li.epochValid, li.epochStillValid, obs, li.draw, li.esc, li.inp, li.biases, li.sigmas)
  }

  /** The sub-adapter's record, or the failure of its computation. */
  function LegRecord(u: T.ReturnUpdate): Result<D.DopplerData>
  {
    if u.outcome.Fail? then Err(u.outcome.msg) else Ok(u.st.d)
  }

  /** The reference sub-adapter computes without noise or bias, range
      only. */
  function Quiet(s: R.ErrorSettings): R.ErrorSettings
  {
    s.(rangeOnly := true, addNoise := false, addBias := false)
  }

  /** Runs the comparison sub-adapter and, when it succeeds, the reference
      one, quiet; returns their records or failures. */
  method RunLegs(ca: T.TDRS3LReturnDopplerAdapter, ra: T.TDRS3LReturnDopplerAdapter,
                 obs: Option<DowdObservation>, compIn: LegInputs, refIn: LegInputs)
    returns (compRec: Result<D.DopplerData>, refRec: Result<D.DopplerData>)
    requires ca != ra
    requires LegReady(ca.Current(), ca.measurementType, ca.settings, LegObservation(obs, Comp), compIn)
    requires LegReady(ra.Current(), ra.measurementType, Quiet(ra.settings), LegObservation(obs, Ref), refIn)
    modifies ca, ra
    ensures var compU := LegUpdate(old(ca.Current()), old(ca.measurementType), old(ca.settings), LegObservation(obs, Comp), compIn);
      && compRec == LegRecord(compU) && ca.config == compU.config && ca.st == compU.st
    ensures var refU := LegUpdate(old(ra.Current()), old(ra.measurementType), Quiet(old(ra.settings)), LegObservation(obs, Ref), refIn);
      && (compRec.Ok? ==> refRec == LegRecord(refU) && ra.settings == Quiet(old(ra.settings))
                          && ra.config == refU.config && ra.st == refU.st)
      && (compRec.Err? ==> ra.settings == old(ra.settings) && ra.config == old(ra.config) && ra.st == old(ra.st))
  {
    var compOutcome := ca.CalculateMeasurement(compIn.epochValid, compIn.epochStillValid, LegObservation(obs, Comp),
                                               compIn.draw, compIn.esc, compIn.inp, compIn.biases, compIn.sigmas);
    if compOutcome.Fail? {
      return Err(compOutcome.msg), Err(compOutcome.msg);
    }
    compRec := Ok(ca.st.d);
    ra.settings := Quiet(ra.settings);
    var refOutcome := ra.CalculateMeasurement(refIn.epochValid, refIn.epochStillValid, LegObservation(obs, Ref),
                                              refIn.draw, refIn.esc, refIn.inp, refIn.biases, refIn.sigmas);
    refRec := if refOutcome.Fail? then Err(refOutcome.msg) else Ok(ra.st.d);
  }

  /** The state a measurement changes, with the outcome. */
  datatype DowdUpdate = DowdUpdate(
    outcome: Outcome,
    compConfig: D.TdrsConfig,
    refConfig: D.TdrsConfig,
    d: DowdData,
    measurementBias: seq<real>,
    noiseSigma: seq<real>)

  /** The record once both sub-records are read back: the comparison's
      epoch, both TDRSs' fields and no entries. */
  function ReadBack(d: DowdData, comp: D.DopplerData, ref: D.DopplerData): DowdData
  {
    DowdData(d.base.(epoch := comp.base.epoch, value := [], correction := []), Reported(d.comp, comp), Reported(d.ref, ref))
  }

  /** The state once the settings are found: they are kept and written to
      the record. */
  function Stage(u: DowdUpdate, comp: D.TdrsConfig, ref: D.TdrsConfig): DowdUpdate
    requires D.ValidIndex(comp) && D.ValidIndex(ref)
  {
    u.(outcome := Pass, compConfig := comp, refConfig := ref,
       d := u.d.(comp := Stamped(u.d.comp, comp), ref := Stamped(u.d.ref, ref)))
  }

  /** The state once both sub-records are in: their fields are read back
      and every path's difference appended; the error model's biases and
      sigmas are taken when there is a path, and an epoch that fails the
      second check marks the record "EGAP". A path the sub-records do not
      cover fails. */
  function Differenced(u1: DowdUpdate, measurementType: string, settings: R.ErrorSettings, epochStillValid: bool,
                       comp: D.DopplerData, ref: D.DopplerData, noise: seq<real>, passBias: real,
                       biases: seq<real>, sigmas: seq<real>): DowdUpdate
  {
    var d := ReadBack(u1.d, comp, ref);
    var ctx := DowdContext(measurementType, settings, biases, comp.base, ref.base, noise, passBias);
    if !Covered(ctx) then u1.(outcome := Fail(PathIndexError), d := d)
    else
      var m := RecordAfter(ctx, d.base, PathCount(ctx));
      var taken := measurementType == DowdType && PathCount(ctx) > 0;
      u1.(d := d.(base := if epochStillValid then m else D.MarkedGap(m)),
          measurementBias := if taken then biases else u1.measurementBias,
          noiseSigma := if taken then sigmas else u1.noiseSigma)
  }

  /** The state after the sub-adapters have run from state u1: a failing
      comparison sub-adapter ends the measurement, a failing reference one
      after the comparison's epoch is taken. */
  function AfterLegs(u1: DowdUpdate, measurementType: string, settings: R.ErrorSettings, epochStillValid: bool,
                     compRec: Result<D.DopplerData>, refRec: Result<D.DopplerData>,
                     noise: seq<real>, passBias: real, biases: seq<real>, sigmas: seq<real>): DowdUpdate
  {
    if compRec.Err? then u1.(outcome := Fail(compRec.msg))
    else if refRec.Err? then u1.(outcome := Fail(refRec.msg), d := u1.d.(base := u1.d.base.(epoch := compRec.value.base.epoch)))
    else Differenced(u1, measurementType, settings, epochStillValid, compRec.value, refRec.value, noise, passBias, biases, sigmas)
  }

  /** The state after a measurement from state u. An epoch off the
      ephemerides only marks the record "EGAP". Otherwise both settings are
      taken from the observation or drawn and written to the record, the
      comparison sub-measurement is computed and its epoch taken, then the
      reference one, and the two are differenced. A failing step ends the
      measurement with the state it has reached. */
  function Calculated(u: DowdUpdate, measurementType: string, settings: R.ErrorSettings,
                      epochValid: bool, epochStillValid: bool, obs: Option<DowdObservation>, drawComp: nat, drawRef: nat,
                      compRec: Result<D.DopplerData>, refRec: Result<D.DopplerData>,
                      noise: seq<real>, passBias: real, biases: seq<real>, sigmas: seq<real>): DowdUpdate
  {
    if !epochValid then u.(outcome := Pass, d := u.d.(base := D.MarkedGap(u.d.base)))
    else match ConfiguredPair(u.compConfig, u.refConfig, obs, drawComp, drawRef)
      case Err(e) => u.(outcome := Fail(e))
      case Ok(cr) =>
        AfterLegs(Stage(u, cr.0, cr.1), measurementType, settings, epochStillValid, compRec, refRec, noise, passBias, biases, sigmas)
  }

  /** How the sub-adapters' states change across a measurement: the
      comparison one, when it runs, takes its computed state; the
      reference one runs, quiet, only after it passes. A sub-adapter that
      does not run is left as it was. */
  twostate predicate LegsAfter(ca: T.TDRS3LReturnDopplerAdapter, ra: T.TDRS3LReturnDopplerAdapter, compRuns: bool,
                               compU: T.ReturnUpdate, refU: T.ReturnUpdate)
    reads ca, ra
  {
    && (if compRuns then ca.config == compU.config && ca.st == compU.st
        else ca.config == old(ca.config) && ca.st == old(ca.st))
    && (if compRuns && compU.outcome.Pass? then ra.settings == Quiet(old(ra.settings)) && ra.config == refU.config && ra.st == refU.st
        else ra.settings == old(ra.settings) && ra.config == old(ra.config) && ra.st == old(ra.st))
  }

  /** A measurement from state u took the adapter to state next: next is
      the state the specification computes from the records the
      sub-adapters produce from their states before it, and they changed
      as LegsAfter says. */
  twostate predicate Measured(ca: T.TDRS3LReturnDopplerAdapter, ra: T.TDRS3LReturnDopplerAdapter, u: DowdUpdate,
                              measurementType: string, settings: R.ErrorSettings,
                              epochValid: bool, epochStillValid: bool, obs: Option<DowdObservation>, drawComp: nat, drawRef: nat,
                              compIn: LegInputs, refIn: LegInputs,
                              noise: seq<real>, passBias: real, biases: seq<real>, sigmas: seq<real>, next: DowdUpdate)
    requires old(LegReady(ca.Current(), ca.measurementType, ca.settings, LegObservation(obs, Comp), compIn))
    requires old(LegReady(ra.Current(), ra.measurementType, Quiet(ra.settings), LegObservation(obs, Ref), refIn))
    reads ca, ra
  {
    var compU := LegUpdate(old(ca.Current()), old(ca.measurementType), old(ca.settings), LegObservation(obs, Comp), compIn);
    var refU := LegUpdate(old(ra.Current()), old(ra.measurementType), Quiet(old(ra.settings)), LegObservation(obs, Ref), refIn);
    && next == Calculated(u, measurementType, settings, epochValid, epochStillValid, obs, drawComp, drawRef,
                          LegRecord(compU), LegRecord(refU), noise, passBias, biases, sigmas)
    && LegsAfter(ca, ra, epochValid && ConfiguredPair(u.compConfig, u.refConfig, obs, drawComp, drawRef).Ok?, compU, refU)
  }

  /** The part of the measurement after both sub-records are in. */
  method Difference(u1: DowdUpdate, measurementType: string, settings: R.ErrorSettings, epochStillValid: bool,
                    comp: D.DopplerData, ref: D.DopplerData, noise: seq<real>, passBias: real, biases: seq<real>, sigmas: seq<real>)
    returns (next: DowdUpdate)
    ensures next == Differenced(u1, measurementType, settings, epochStillValid, comp, ref, noise, passBias, biases, sigmas)
  {
    var d := ReadBack(u1.d, comp, ref);
    var ctx := DowdContext(measurementType, settings, biases, comp.base, ref.base, noise, passBias);
    if !Covered(ctx) {
      return u1.(outcome := Fail(PathIndexError), d := d);
    }
    var m := PushDifferences(ctx, d.base);
    next := u1.(d := d.(base := m));
    if measurementType == DowdType && PathCount(ctx) > 0 {
      next := next.(measurementBias := biases, noiseSigma := sigmas);
    }
    if !epochStillValid {
      next := next.(d := next.d.(base := D.MarkedGap(next.d.base)));
    }
  }

  /** The measurement: the adapter's own steps around the runs of the two
      sub-adapters, which happen only once the epoch is valid and the
      settings are found, the reference one only after the comparison one
      succeeds. */
  method Measure(u: DowdUpdate, measurementType: string, settings: R.ErrorSettings,
                 epochValid: bool, epochStillValid: bool, obs: Option<DowdObservation>, drawComp: nat, drawRef: nat,
                 ca: T.TDRS3LReturnDopplerAdapter, ra: T.TDRS3LReturnDopplerAdapter, compIn: LegInputs, refIn: LegInputs,
                 noise: seq<real>, passBias: real, biases: seq<real>, sigmas: seq<real>)
    returns (next: DowdUpdate)
    requires ca != ra
    requires LegReady(ca.Current(), ca.measurementType, ca.settings, LegObservation(obs, Comp), compIn)
    requires LegReady(ra.Current(), ra.measurementType, Quiet(ra.settings), LegObservation(obs, Ref), refIn)
    modifies ca, ra
    ensures Measured(ca, ra, u, measurementType, settings, epochValid, epochStillValid, obs, drawComp, drawRef,
                     compIn, refIn, noise, passBias, biases, sigmas, next)
  {
    if !epochValid {
      return u.(outcome := Pass, d := u.d.(base := D.MarkedGap(u.d.base)));
    }
    var cr := ConfiguredPair(u.compConfig, u.refConfig, obs, drawComp, drawRef);
    if cr.Err? {
      return u.(outcome := Fail(cr.msg));
    }
    var u1 := Stage(u, cr.value.0, cr.value.1);
    var compRec, refRec := RunLegs(ca, ra, obs, compIn, refIn);
    if compRec.Err? {
      return u1.(outcome := Fail(compRec.msg));
    }
    if refRec.Err? {
      return u1.(outcome := Fail(refRec.msg), d := u1.d.(base := u1.d.base.(epoch := compRec.value.base.epoch)));
    }
    next := Difference(u1, measurementType, settings, epochStillValid, compRec.value, refRec.value, noise, passBias, biases, sigmas);
  }

  // ---------------------------------------------------------------------
  // Derivatives
  // ---------------------------------------------------------------------

  /** One entry of the derivative: comparison minus reference for a state
      parameter, the comparison's otherwise. */
  function DifferencedEntry(paramName: string, comp: real, ref: real): real
  {
    if D.IsStateParameter(paramName) then comp * CompMultiplier + ref * RefMultiplier else comp
  }

  /** The two copied tables difference row by row: the reference table has
      the comparison's width and at least as many rows. */
  predicate Differenceable(comp: seq<seq<real>>, ref: seq<seq<real>>)
    requires R.Rectangular(comp) && R.Rectangular(ref)
  {
    D.Width(ref) == D.Width(comp) && |ref| >= |comp|
  }

  /** The message of tables that do not difference: a reference table of
      another width, or one with fewer rows. */
  function DifferenceError(comp: seq<seq<real>>, ref: seq<seq<real>>): string
    requires R.Rectangular(comp) && R.Rectangular(ref)
  {
    if D.Width(ref) != D.Width(comp) then RefSizeError else PathIndexError
  }

  /** What the derivative of the differenced measurement is: a failing
      sub-adapter's failure, comparison first; then the copy of the first
      table that is not rectangular fails; otherwise the tables difference
      row by row. */
  predicate CopiedAndDifferenced(paramName: string, comp: Result<seq<seq<real>>>, ref: Result<seq<seq<real>>>,
                                 r: Result<seq<seq<real>>>)
  {
    && (comp.Err? ==> r == Err(comp.msg))
    && (comp.Ok? && ref.Err? ==> r == Err(ref.msg))
    && (comp.Ok? && ref.Ok? ==>
          var c := comp.value;
          var f := ref.value;
          && (!R.Rectangular(c) ==> r == Err(D.CopyError(c)))
          && (R.Rectangular(c) && !R.Rectangular(f) ==> r == Err(D.CopyError(f)))
          && (R.Rectangular(c) && R.Rectangular(f) ==>
                && (r.Ok? <==> Differenceable(c, f))
                && (r.Err? ==> r.msg == DifferenceError(c, f))
                && (r.Ok? ==> (|r.value| == |c|
                    && (forall i :: 0 <= i < |c| ==> |r.value[i]| == D.Width(c))
                    && forall i, j :: 0 <= i < |c| && 0 <= j < D.Width(c) ==>
                         r.value[i][j] == DifferencedEntry(paramName, c[i][j], f[i][j])))))
  }

  /** Differences two rectangular tables row by row. */
  method DifferenceRows(paramName: string, comp: seq<seq<real>>, ref: seq<seq<real>>) returns (r: Result<seq<seq<real>>>)
    requires R.Rectangular(comp) && R.Rectangular(ref)
    ensures r.Ok? <==> Differenceable(comp, ref)
    ensures r.Err? ==> r.msg == DifferenceError(comp, ref)
    ensures r.Ok? ==> |r.value| == |comp|
    ensures r.Ok? ==> forall i :: 0 <= i < |comp| ==> |r.value[i]| == D.Width(comp)
    ensures r.Ok? ==> forall i, j :: 0 <= i < |comp| && 0 <= j < D.Width(comp) ==>
      r.value[i][j] == DifferencedEntry(paramName, comp[i][j], ref[i][j])
  {
    var size := |comp[0]|;
    var rows: seq<seq<real>> := [];
    var i := 0;
    while i < |comp|
      invariant 0 <= i <= |comp|
      invariant |rows| == i
      invariant i > 0 ==> D.Width(ref) == size
      invariant i <= |ref|
      invariant forall k :: 0 <= k < i ==> |rows[k]| == size
      invariant forall k, j :: 0 <= k < i && 0 <= j < size ==> rows[k][j] == DifferencedEntry(paramName, comp[k][j], ref[k][j])
    {
      if i >= |ref| {
        return Err(PathIndexError);
      }
      if |ref[i]| != size {
        return Err(RefSizeError);
      }
      var row: seq<real> := [];
      var j := 0;
      while j < size
        invariant 0 <= j <= size
        invariant |row| == j
        invariant forall q :: 0 <= q < j ==> row[q] == DifferencedEntry(paramName, comp[i][q], ref[i][q])
      {
        row := row + [DifferencedEntry(paramName, comp[i][j], ref[i][j])];
        j := j + 1;
      }
      rows := rows + [row];
      i := i + 1;
    }
    return Ok(rows);
  }

  /** Takes both sub-adapters' derivative tables, copies each (it must be
      rectangular) and differences them. */
  method TwoLegDerivatives(paramName: string, comp: Result<seq<seq<real>>>, ref: Result<seq<seq<real>>>)
    returns (r: Result<seq<seq<real>>>)
    ensures CopiedAndDifferenced(paramName, comp, ref, r)
  {
    if comp.Err? {
      return Err(comp.msg);
    }
    if ref.Err? {
      return Err(ref.msg);
    }
    var compCopy := R.ScaleDerivatives(comp.value, 1.0);
    if compCopy.Err? {
      return Err(compCopy.msg);
    }
    var refCopy := R.ScaleDerivatives(ref.value, 1.0);
    if refCopy.Err? {
      return Err(refCopy.msg);
    }
    D.CopiesAreEqual(comp.value, compCopy.value);
    D.CopiesAreEqual(ref.value, refCopy.value);
    r := DifferenceRows(paramName, compCopy.value, refCopy.value);
  }

  /** A state derivative is the derivative of the difference: the
      comparison's minus the reference's, as for the value itself. */
  lemma StateDerivativeIsDifference(paramName: string, comp: seq<seq<real>>, ref: seq<seq<real>>, r: Result<seq<seq<real>>>)
    requires D.IsStateParameter(paramName)
    requires CopiedAndDifferenced(paramName, Ok(comp), Ok(ref), r) && r.Ok?
    ensures |r.value| == |comp|
    ensures forall i, j :: 0 <= i < |comp| && 0 <= j < |comp[i]| ==> r.value[i][j] == comp[i][j] - ref[i][j]
  {
    forall i, j | 0 <= i < |comp| && 0 <= j < |comp[i]|
      ensures r.value[i][j] == comp[i][j] - ref[i][j]
    {
      assert |comp[i]| == D.Width(comp);
    }
  }

  /** What a derivative request supplies: the parameter's name, the type of
      the error model it belongs to (for biases), how many of the
      measurement's participants the object's name contains, the
      parameter's size, the measurement model's derivatives (at the
      measurement epoch for a pass bias), and the two sub-adapters'
      derivatives or failures. */
  datatype DowdDerivativeRequest = DowdDerivativeRequest(
    paramName: string,
    errorModelType: string,
    participantMatches: nat,
    parameterSize: nat,
    modelDerivatives: seq<seq<real>>,
    comp: Result<seq<seq<real>>>,
    ref: Result<seq<seq<real>>>)

  // ---------------------------------------------------------------------
  // The adapter
  // ---------------------------------------------------------------------

  /** The settings of one sub-adapter's computation before the adapter runs
      it. */
  datatype SubReadiness = SubReadiness(base: bool, ssc: bool, sgs: bool, esc: bool, egs: bool)

  const InitialFields := TdrsFields(0.0, 0, 0, 0, "", 0.0)
  const InitialRecord := DowdData(D.InitialRecord.base, InitialFields, InitialFields)
  const DefaultConfig := D.TdrsConfig([], 0, 1.0, 2000.0, 1, 0, 0)

  class TDRSDOWDAdapter {
    var instanceName: string
    var typeName: string
    var measurementType: string
    /** The adapter's own copies of the two TDRSs' settings. */
    var compConfig: D.TdrsConfig
    var refConfig: D.TdrsConfig
    var settings: R.ErrorSettings
    var otherFlags: map<int, bool>
    var measurementBias: seq<real>
    var noiseSigma: seq<real>
    var d: DowdData
    /** Whether the measurement model the adapter reads has been set. */
    var hasCalcData: bool
    /** The sub-adapters through the comparison and the reference TDRS. */
    const compAdapter: T.TDRS3LReturnDopplerAdapter
    const refAdapter: T.TDRS3LReturnDopplerAdapter

    /** The two sub-adapters are distinct objects. */
    predicate Distinct()
      reads this
    {
      compAdapter != refAdapter
    }

    function ConfigOf(leg: Leg): D.TdrsConfig
      reads this
    {
      if leg == Comp then compConfig else refConfig
    }

    function AdapterOf(leg: Leg): T.TDRS3LReturnDopplerAdapter
    {
      if leg == Comp then compAdapter else refAdapter
    }

    /** A new adapter over the sub-adapters comp and ref, with the
        comparison and reference weights +1 and -1. */
    constructor (name: string, measType: string, comp: T.TDRS3LReturnDopplerAdapter, ref: T.TDRS3LReturnDopplerAdapter)
      requires comp != ref
      ensures Distinct() && compAdapter == comp && refAdapter == ref
      ensures instanceName == name && typeName == DowdType && measurementType == measType
      ensures compConfig == DefaultConfig && refConfig == DefaultConfig
      ensures settings == R.ErrorSettings(false, false, false, false) && otherFlags == map[]
      ensures measurementBias == [] && noiseSigma == [] && d == InitialRecord && !hasCalcData
    {
      instanceName, typeName, measurementType := name, DowdType, measType;
      compConfig, refConfig := DefaultConfig, DefaultConfig;
      settings := R.ErrorSettings(false, false, false, false);
      otherFlags := map[];
      measurementBias, noiseSigma := [], [];
      d := InitialRecord;
      hasCalcData := false;
      compAdapter, refAdapter := comp, ref;
    }

    /** Sets the service access at index of one TDRS's list: inside the
        list it overwrites, just past its end it appends, elsewhere it
        fails. The sub-adapter is not told. */
    method SetServiceAccess(leg: Leg, index: int, value: string) returns (r: Outcome)
      modifies this
      ensures r.Pass? <==> 0 <= index <= |old(ConfigOf(leg)).serviceAccessList|
      ensures r.Fail? ==> r.msg == SetIndexError && compConfig == old(compConfig) && refConfig == old(refConfig)
      ensures r.Pass? ==> ConfigOf(leg) == old(ConfigOf(leg)).(serviceAccessList := SetAt(old(ConfigOf(leg)).serviceAccessList, index, value).value)
      ensures leg == Comp ==> refConfig == old(refConfig)
      ensures leg == Ref ==> compConfig == old(compConfig)
      ensures instanceName == old(instanceName) && typeName == old(typeName) && measurementType == old(measurementType)
      ensures settings == old(settings) && otherFlags == old(otherFlags)
      ensures measurementBias == old(measurementBias) && noiseSigma == old(noiseSigma)
      ensures d == old(d) && hasCalcData == old(hasCalcData)
    {
      var cfg := ConfigOf(leg);
      var l := SetAt(cfg.serviceAccessList, index, value);
      SetAtMeaning(cfg.serviceAccessList, index, value);
      if l.Err? {
        return Fail(l.msg);
      }
      if leg == Comp {
        compConfig := cfg.(serviceAccessList := l.value);
      } else {
        refConfig := cfg.(serviceAccessList := l.value);
      }
      return Pass;
    }

    /** The service access at index of one TDRS's list, or the out-of-bound
        message. */
    method GetServiceAccess(leg: Leg, index: int) returns (r: Result<string>)
      ensures r == GetAt(ConfigOf(leg).serviceAccessList, index)
      ensures r.Ok? <==> 0 <= index < |ConfigOf(leg).serviceAccessList|
    {
      var list := ConfigOf(leg).serviceAccessList;
      if 0 <= index && index < |list| {
        return Ok(list[index]);
      }
      return Err(GetIndexError(index, |list|));
    }

    /** Sets one TDRS's count interval or node-4 frequency, here and on its
        sub-adapter; neither takes a value that is not positive. */
    method SetRealParameter(leg: Leg, id: T.RealId, value: real) returns (r: Result<real>)
      requires Distinct()
      modifies this, AdapterOf(leg)
      ensures r.Ok? <==> value > 0.0
      ensures r.Ok? ==> r.value == value
      ensures r.Err? ==> r.msg == (if id == T.DopplerCountIntervalId then CountIntervalError(leg) else Node4FrequencyError(leg))
      ensures r.Err? ==> compConfig == old(compConfig) && refConfig == old(refConfig)
      ensures r.Err? ==> AdapterOf(leg).config == old(AdapterOf(leg).config)
      ensures r.Ok? && id == T.DopplerCountIntervalId ==>
        && ConfigOf(leg) == old(ConfigOf(leg)).(dopplerCountInterval := value)
        && AdapterOf(leg).config == old(AdapterOf(leg).config).(dopplerCountInterval := value)
      ensures r.Ok? && id == T.Node4FrequencyId ==>
        && ConfigOf(leg) == old(ConfigOf(leg)).(node4Freq := value)
        && AdapterOf(leg).config == old(AdapterOf(leg).config).(node4Freq := value)
      ensures leg == Comp ==> refConfig == old(refConfig)
      ensures leg == Ref ==> compConfig == old(compConfig)
      ensures instanceName == old(instanceName) && typeName == old(typeName) && measurementType == old(measurementType)
      ensures settings == old(settings) && otherFlags == old(otherFlags)
      ensures measurementBias == old(measurementBias) && noiseSigma == old(noiseSigma)
      ensures d == old(d) && hasCalcData == old(hasCalcData)
    {
      if value <= 0.0 {
        return Err(if id == T.DopplerCountIntervalId then CountIntervalError(leg) else Node4FrequencyError(leg));
      }
      var cfg := ConfigOf(leg);
      var cfg' := if id == T.DopplerCountIntervalId then cfg.(dopplerCountInterval := value) else cfg.(node4Freq := value);
      if leg == Comp {
        compConfig := cfg';
      } else {
        refConfig := cfg';
      }
      var _ := AdapterOf(leg).SetRealParameter(id, value);
      return Ok(value);
    }

    /** Sets one TDRS's node-4 band, SMA receiver id or data flag, here and
        on its sub-adapter, unchecked; the sub-adapter's answer, the integer
        1, is returned. */
    method SetIntegerParameter(leg: Leg, id: T.IntegerId, value: int) returns (r: int)
      requires Distinct()
      modifies this, AdapterOf(leg)
      ensures r == 1
      ensures id == T.Node4BandId ==>
        ConfigOf(leg) == old(ConfigOf(leg)).(node4FreqBand := value)
        && AdapterOf(leg).config == old(AdapterOf(leg).config).(node4FreqBand := value)
      ensures id == T.SmarIdId ==>
        ConfigOf(leg) == old(ConfigOf(leg)).(smarId := value)
        && AdapterOf(leg).config == old(AdapterOf(leg).config).(smarId := value)
      ensures id == T.DataFlagId ==>
        ConfigOf(leg) == old(ConfigOf(leg)).(dataFlag := value)
        && AdapterOf(leg).config == old(AdapterOf(leg).config).(dataFlag := value)
      ensures leg == Comp ==> refConfig == old(refConfig)
      ensures leg == Ref ==> compConfig == old(compConfig)
      ensures instanceName == old(instanceName) && typeName == old(typeName) && measurementType == old(measurementType)
      ensures settings == old(settings) && otherFlags == old(otherFlags)
      ensures measurementBias == old(measurementBias) && noiseSigma == old(noiseSigma)
      ensures d == old(d) && hasCalcData == old(hasCalcData)
    {
      var cfg := ConfigOf(leg);
      var cfg' := match id
        case Node4BandId => cfg.(node4FreqBand := value)
        case SmarIdId => cfg.(smarId := value)
        case DataFlagId => cfg.(dataFlag := value);
      if leg == Comp {
        compConfig := cfg';
      } else {
        refConfig := cfg';
      }
      r := AdapterOf(leg).SetIntegerParameter(id, value);
    }

    /** Sets a boolean setting here and on both sub-adapters, except that
        the sub-adapters never take AddNoise: they are set to false. The
        value given is returned. */
    method SetBooleanParameter(id: D.BooleanId, value: bool) returns (r: bool)
      requires Distinct()
      modifies this, compAdapter, refAdapter
      ensures r == value
      ensures var subValue := if id == D.AddNoiseId then false else value;
        && compAdapter.escFlags == D.SetFlag(old(compAdapter.escFlags), id, subValue)
        && refAdapter.escFlags == D.SetFlag(old(refAdapter.escFlags), id, subValue)
      ensures id == D.AddNoiseId ==>
        && compAdapter.settings == old(compAdapter.settings).(addNoise := false)
        && refAdapter.settings == old(refAdapter.settings).(addNoise := false)
        && settings == old(settings).(addNoise := value) && otherFlags == old(otherFlags)
      ensures id.OtherBooleanId? ==>
        && compAdapter.otherFlags == old(compAdapter.otherFlags)[id.id := value]
        && refAdapter.otherFlags == old(refAdapter.otherFlags)[id.id := value]
        && settings == old(settings) && otherFlags == old(otherFlags)[id.id := value]
      ensures instanceName == old(instanceName) && typeName == old(typeName) && measurementType == old(measurementType)
      ensures compConfig == old(compConfig) && refConfig == old(refConfig)
      ensures measurementBias == old(measurementBias) && noiseSigma == old(noiseSigma)
      ensures d == old(d) && hasCalcData == old(hasCalcData)
    {
      var subValue := if id == D.AddNoiseId then false else value;
      compAdapter.SetBooleanParameter(id, subValue);
      refAdapter.SetBooleanParameter(id, subValue);
      match id {
        case AddNoiseId => settings := settings.(addNoise := value);
        case OtherBooleanId(k) => otherFlags := otherFlags[k := value];
      }
      return value;
    }

    /** Initializes after the base adapter (baseReady): both service
        indices go back to 0, each list is handed to its sub-adapter name
        by name, and both sub-adapters are initialized; success needs
        both. */
    method Initialize(baseReady: bool, comp: SubReadiness, ref: SubReadiness) returns (r: bool)
      requires Distinct()
      modifies this, compAdapter, refAdapter
      ensures r <==> baseReady && comp.base && comp.ssc && comp.sgs && comp.esc && comp.egs
                             && ref.base && ref.ssc && ref.sgs && ref.esc && ref.egs
      ensures compConfig == if baseReady then old(compConfig).(serviceAccessIndex := 0) else old(compConfig)
      ensures refConfig == if baseReady then old(refConfig).(serviceAccessIndex := 0) else old(refConfig)
      ensures baseReady ==>
        compAdapter.config.serviceAccessList == Overlaid(old(compConfig.serviceAccessList), old(compAdapter.config.serviceAccessList))
        && refAdapter.config.serviceAccessList == Overlaid(old(refConfig.serviceAccessList), old(refAdapter.config.serviceAccessList))
      ensures baseReady && comp.base ==> compAdapter.config.serviceAccessIndex == 0
      ensures baseReady && ref.base ==> refAdapter.config.serviceAccessIndex == 0
      ensures !baseReady ==> compAdapter.config == old(compAdapter.config) && refAdapter.config == old(refAdapter.config)
      ensures instanceName == old(instanceName) && typeName == old(typeName) && measurementType == old(measurementType)
      ensures settings == old(settings) && otherFlags == old(otherFlags)
      ensures measurementBias == old(measurementBias) && noiseSigma == old(noiseSigma)
      ensures d == old(d) && hasCalcData == old(hasCalcData)
    {
      r := false;
      if baseReady {
        compConfig := compConfig.(serviceAccessIndex := 0);
        refConfig := refConfig.(serviceAccessIndex := 0);
        CopyServiceAccesses(compConfig.serviceAccessList, compAdapter);
        CopyServiceAccesses(refConfig.serviceAccessList, refAdapter);
        r := compAdapter.Initialize(comp.base, comp.ssc, comp.sgs, comp.esc, comp.egs);
        var refOk := refAdapter.Initialize(ref.base, ref.ssc, ref.sgs, ref.esc, ref.egs);
        r := refOk && r;
      }
    }

    /** The adapter's state that a measurement may change. */
    function Current(): DowdUpdate
      reads this
    {
      DowdUpdate(Pass, compConfig, refConfig, d, measurementBias, noiseSigma)
    }

    /** Computes the differenced Doppler measurement. epochValid and
        epochStillValid are the epoch checks before and after the
        computation, obs the observation (none when simulating), drawComp
        and drawRef the random draws that pick the service accesses; each
        sub-adapter computes from compIn or refIn, the reference one quiet;
        noise, passBias, biases and sigmas are what the error model
        supplies. */
    method CalculateMeasurement(epochValid: bool, epochStillValid: bool, obs: Option<DowdObservation>,
                                drawComp: nat, drawRef: nat, compIn: LegInputs, refIn: LegInputs,
                                noise: seq<real>, passBias: real, biases: seq<real>, sigmas: seq<real>)
      returns (r: Outcome)
      requires Distinct()
      requires LegReady(compAdapter.Current(), compAdapter.measurementType, compAdapter.settings, LegObservation(obs, Comp), compIn)
      requires LegReady(refAdapter.Current(), refAdapter.measurementType, Quiet(refAdapter.settings), LegObservation(obs, Ref), refIn)
      modifies this, compAdapter, refAdapter
      ensures Measured(compAdapter, refAdapter, old(Current()), old(measurementType), old(settings),
                       epochValid, epochStillValid, obs, drawComp, drawRef, compIn, refIn,
                       noise, passBias, biases, sigmas, Current().(outcome := r))
      ensures instanceName == old(instanceName) && typeName == old(typeName) && measurementType == old(measurementType)
      ensures settings == old(settings) && otherFlags == old(otherFlags) && hasCalcData == old(hasCalcData)
    {
      var u0 := Current();
      var next := Measure(u0, measurementType, settings, epochValid, epochStillValid, obs, drawComp, drawRef,
                          compAdapter, refAdapter, compIn, refIn, noise, passBias, biases, sigmas);
      compConfig, refConfig, d := next.compConfig, next.refConfig, next.d;
      measurementBias, noiseSigma := next.measurementBias, next.noiseSigma;
      r := next.outcome;
      assert Current().(outcome := r) == next;
    }

    /** The derivatives of the measurement with respect to a parameter. A
        bias of a DOWD error model shared by more than one participant, and
        a pass bias of such a model, take the measurement model's
        derivatives; any other bias a row of zeros. Any other parameter
        differences the two sub-adapters' tables. */
    method CalculateMeasurementDerivatives(req: DowdDerivativeRequest) returns (r: Result<seq<seq<real>>>)
      ensures !hasCalcData ==> r == Err(R.DerivativesNotSetError(instanceName))
      ensures hasCalcData && req.paramName == "Bias" ==>
        r == Ok(if req.errorModelType == DowdType && req.participantMatches > 1 then req.modelDerivatives else R.ZeroRow(req.parameterSize))
      ensures hasCalcData && req.paramName == "PassBiases" ==>
        r == Ok(if req.errorModelType == DowdType then req.modelDerivatives else R.ZeroRow(req.parameterSize))
      ensures hasCalcData && req.paramName != "Bias" && req.paramName != "PassBiases" ==>
        CopiedAndDifferenced(req.paramName, req.comp, req.ref, r)
    {
      if !hasCalcData {
        return Err(R.DerivativesNotSetError(instanceName));
      }
      if req.paramName == "Bias" {
        if req.errorModelType == DowdType && req.participantMatches > 1 {
          return Ok(req.modelDerivatives);
        }
        return Ok(R.ZeroRow(req.parameterSize));
      } else if req.paramName == "PassBiases" {
        if req.errorModelType == DowdType {
          return Ok(req.modelDerivatives);
        }
        return Ok(R.ZeroRow(req.parameterSize));
      }
      r := TwoLegDerivatives(req.paramName, req.comp, req.ref);
    }
  }
}
