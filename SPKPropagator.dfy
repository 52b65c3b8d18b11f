/** The SPICE propagator
    (plugins/EphemPropagatorPlugin/src/base/propagator/SPKPropagator.cpp):
    a propagator that reads one spacecraft's states from its orbit SPICE
    kernels.

    Initialize loads the spacecraft's kernels, takes the coverage spans and
    the span of the ephemeris from the kernel reader of
    SpiceOrbitKernelReaderModel, and reads the first state; Step moves the
    epoch with the clock arithmetic of CcsdsEphPropagatorModel, without the
    pause at the bounds, and reads the state at the new epoch. The states
    themselves come from a function given to the model (the SPICE query). */
module SPKPropagatorModel {
  import opened Common
  import Ccsds = CcsdsEphPropagatorModel
  import Kr = SpiceOrbitKernelReaderModel

  // ---------------------------------------------------------------------
  // String parameters

  /** A string parameter: the kernel list, the central body, or one the
      base class handles alone. */
  datatype SpkParam = SpkFileNames | EphemCentralBody | Inherited(id: int)

  /** What the string parameters set: the kernel list, the base class's
      central body and the body the SPICE queries are made about. */
  datatype ParamState = ParamState(files: seq<string>, centralBody: string, spkCentralBody: string)

  /** The base class's SetStringParameter: whether it accepts the value,
      and the central body it leaves. */
  type BaseSet = (SpkParam, string, string) -> (bool, string)

  function MoonMessage(): string { "\"Moon\" is not an allowed central body; try \"Luna\"" }

  /** The body of the SPICE queries for a GMAT central body: Luna is Moon
      to SPICE. */
  function SpiceBody(cb: string): string
  {
    if cb == "Luna" then "Moon" else cb
  }

  /** SetStringParameter as GMAT writes it: the test of the base class's
      answer is an assignment, so the central-body branch runs whatever
      the base class answered, and the answer is always true. */
  function SetStringAsWritten(s: ParamState, p: SpkParam, value: string, baseSet: BaseSet): Result<(ParamState, bool)>
  {
    if p == SpkFileNames then
      Ok((s.(files := if value != "" then AddIfAbsent(s.files, value) else s.files), true))
    else
      var b := baseSet(p, value, s.centralBody);
      var s1 := s.(centralBody := b.1);
      var retval := true;
      if retval && p == EphemCentralBody then
        if value == "Moon" then Err(MoonMessage())
        else Ok((s1.(spkCentralBody := SpiceBody(s1.centralBody)), retval))
      else Ok((s1, retval))
  }

  /** SetStringParameter as it is evidently meant: a non-empty kernel name
      is added once; any other parameter goes to the base class, whose
      answer is returned, and only an accepted central body (never "Moon")
      sets the body of the SPICE queries. */
  function SetString(s: ParamState, p: SpkParam, value: string, baseSet: BaseSet): Result<(ParamState, bool)>
  {
    if p == SpkFileNames then
      Ok((s.(files := if value != "" then AddIfAbsent(s.files, value) else s.files), true))
    else
      var b := baseSet(p, value, s.centralBody);
      var s1 := s.(centralBody := b.1);
      if b.0 && p == EphemCentralBody then
        if value == "Moon" then Err(MoonMessage())
        else Ok((s1.(spkCentralBody := SpiceBody(s1.centralBody)), b.0))
      else Ok((s1, b.0))
  }

  /** What the corrected setter promises: the kernel list is only ever
      extended, once per name and never by an empty name, and is accepted
      always; any other parameter reports the base class's answer and
      leaves the kernel list alone; the central body "Moon" is refused
      exactly when the base class accepts it; the SPICE body changes only
      for an accepted central body, and is then the new central body with
      Luna spelled Moon. */
  lemma {:induction false} SetStringPromises(s: ParamState, p: SpkParam, value: string, baseSet: BaseSet)
    requires NoDuplicates(s.files)
    ensures var r := SetString(s, p, value, baseSet);
      && (p == SpkFileNames ==>
            (r.Ok? && r.value.1 && NoDuplicates(r.value.0.files)
             && r.value.0.files == (if value == "" || value in s.files then s.files else s.files + [value])
             && r.value.0.centralBody == s.centralBody && r.value.0.spkCentralBody == s.spkCentralBody))
      && (p != SpkFileNames ==>
            ((r.Err? <==> p == EphemCentralBody && value == "Moon" && baseSet(p, value, s.centralBody).0)
             && (r.Err? ==> r.msg == MoonMessage())
             && (r.Ok? ==> r.value.1 == baseSet(p, value, s.centralBody).0 && r.value.0.files == s.files
                           && r.value.0.centralBody == baseSet(p, value, s.centralBody).1)
             && (r.Ok? && r.value.0.spkCentralBody != s.spkCentralBody ==>
                   p == EphemCentralBody && r.value.1
                   && r.value.0.spkCentralBody == SpiceBody(r.value.0.centralBody))))
  {
    if p == SpkFileNames && value != "" {
      AddIfAbsentKeepsDistinct(s.files, value);
    }
  }

  /** A base class that refuses every value. */
  function Refusing(): BaseSet
  {
    (p: SpkParam, v: string, cb: string) => (false, cb)
  }

  /** The setter as written reports success for a parameter the base class
      refused, and refuses the central body "Moon" with an exception even
      when the base class did not take it; the corrected setter reports
      the refusal. */
  lemma RefusedValueReportedAsSet(s: ParamState)
    ensures SetStringAsWritten(s, Inherited(7), "x", Refusing()) == Ok((s, true))
    ensures SetString(s, Inherited(7), "x", Refusing()) == Ok((s, false))
    ensures SetStringAsWritten(s, EphemCentralBody, "Moon", Refusing()) == Err(MoonMessage())
    ensures SetString(s, EphemCentralBody, "Moon", Refusing()) == Ok((s, false))
  {
  }

  /** IsParameterReadOnly: the kernel list is read-only. */
  function IsParameterReadOnly(p: SpkParam, baseReadOnly: SpkParam -> bool): bool
  {
    p == SpkFileNames || baseReadOnly(p)
  }

  /** The indexed getter: a kernel name, or "" outside the list. */
  function GetStringAt(s: ParamState, p: SpkParam, index: int, baseGet: (SpkParam, int) -> string): string
  {
    if p == SpkFileNames then
      if 0 <= index < |s.files| then s.files[index] else ""
    else baseGet(p, index)
  }

  /** The indexed setter: a kernel name is replaced in place; an index
      outside the list is refused. */
  function SetStringAt(s: ParamState, p: SpkParam, value: string, index: int,
                                     baseSet: (SpkParam, string, int) -> bool): (ParamState, bool)
  {
    if p == SpkFileNames then
      if 0 <= index < |s.files| then (s.(files := s.files[index := value]), true) else (s, false)
    else (s, baseSet(p, value, index))
  }

  /** The kernel list is read-only to users; an index reads back what was
      set there, an index outside the list reads "" and cannot be set, and
      setting changes that entry alone. */
  lemma {:induction false} KernelListAccess(s: ParamState, value: string, index: int,
                                            baseReadOnly: SpkParam -> bool, baseGet: (SpkParam, int) -> string,
                                            baseSet: (SpkParam, string, int) -> bool)
    ensures IsParameterReadOnly(SpkFileNames, baseReadOnly)
    ensures var r := SetStringAt(s, SpkFileNames, value, index, baseSet);
      && (r.1 <==> 0 <= index < |s.files|)
      && (!r.1 ==> r.0 == s && GetStringAt(s, SpkFileNames, index, baseGet) == "")
      && (r.1 ==> |r.0.files| == |s.files|
                  && GetStringAt(r.0, SpkFileNames, index, baseGet) == value
                  && (forall j :: 0 <= j < |s.files| && j != index ==> r.0.files[j] == s.files[j]))
  {
  }

  // ---------------------------------------------------------------------
  // Messages

  function OneObjectMessage(): string
  {
    "SPICE propagators (i.e. \"SPK\" propagators) require exactly one SpaceObject."
  }
  function NotSpacecraftMessage(): string { "Spice (SPK) propagators only work for Spacecraft right now." }
  function NoKernelMessage(name: string): string
  {
    "Spice (SPK) propagator requires at least one orbit SPICE kernel for spacecraft " + name
  }
  function MissingKernelMessage(file: string): string { "The Spice (SPK) file " + file + " does not exist" }
  function InvalidIndexMessage(): string { "SPKPropagator::SetEphemSpan(Integer whichOne): Invalid index" }

  function CoverageText(start: real, end: real, epoch: real, num: real -> string): string
  {
    "The current SPICE ephemeris covers the A.1 modified Julian span " + num(start) + " to " + num(end)
      + " and the requested epoch is " + num(epoch) + ".\n"
  }

  function InitOutsideMessage(name: string, start: real, end: real, epoch: real, num: real -> string): string
  {
    "The SPKPropagator " + name + " is attempting to initialize outside of the timespan of the ephemeris data; halting.  "
      + CoverageText(start, end, epoch, num)
  }

  function StepOutsideMessage(name: string, start: real, end: real, epoch: real, num: real -> string): string
  {
    "The SPKPropagator " + name + " is attempting to step outside of the span of the ephemeris data; halting."
      + CoverageText(start, end, epoch, num)
  }

  function AccessOutsideMessage(name: string, start: real, end: real, epoch: real, num: real -> string): string
  {
    "The SPKPropagator " + name + " is attempting to access state data outside of the span of the ephemeris data; halting.  "
      + CoverageText(start, end, epoch, num)
  }

  /** The state of a default-constructed six-vector, used when no state is
      read. */
  const Unset: seq<real> := [0.0, 0.0, 0.0, 0.0, 0.0, 0.0]

  // ---------------------------------------------------------------------
  // What Initialize and Step work with

  /** The propagated object: its name, NAIF id, whether it is a
      spacecraft, and its orbit kernel names. */
  datatype SpkObject = SpkObject(name: string, naifId: int, isSpacecraft: bool, kernels: seq<string>)

  /** The propagated object as Step and UpdateState see it. */
  datatype Target = Target(name: string, naifId: int)

  /** What the propagator asks of the base class, the file manager and
      SPICE: whether the base initialisation succeeded, the objects,
      whether the state manager is set, the initial epoch, the path the
      file manager finds for a kernel ("" when none), the kernels' contents,
      whether the initial ephemeris epoch is set and otherwise the span the
      base class's SetEphemSpan makes of the kernel span, whether to stop
      outside the ephemeris, the SPICE state query (target name, NAIF id,
      epoch, central body; an error is an exception), the formatting of
      reals in messages, and the precision-time epoch, which the
      real-valued path never updates. */
  datatype SpkEnv = SpkEnv(
    baseInitialized: bool,
    objects: seq<SpkObject>,
    psmSet: bool,
    initialEpoch: real,
    findPath: string -> string,
    sp: Kr.Spice,
    initialEphemEpochSet: bool,
    baseSpan: (real, real) -> (real, real),
    stopOutside: bool,
    fetch: (string, int, real, string) -> Result<seq<real>>,
    num: real -> string,
    epochGT: real)

  // ---------------------------------------------------------------------
  // The propagator's state and what its methods do to it

  /** The fields of the propagator: the kernel list, the NAIF ids, the
      SPICE body, the span and step, the clock, the state, the epoch given
      to the spacecraft and whether it was told it propagated, the
      off-ephemeris warning flag, whether a kernel reader exists, the
      kernels loaded into SPICE, and the coverage spans. */
  datatype Fields = Fields(
    files: seq<string>,
    naifIds: seq<int>,
    spkCentralBody: string,
    ephemStart: real,
    ephemEnd: real,
    ephemStep: real,
    clock: Ccsds.Clock,
    state: seq<real>,
    objectEpoch: real,
    propagated: bool,
    warnOffEphem: bool,
    readerSet: bool,
    loaded: set<string>,
    spanStart: seq<real>,
    spanEnd: seq<real>)

  /** An epoch outside the span by more than the slop. */
  predicate Outside(e: real, f: Fields)
  {
    e < f.ephemStart - Ccsds.Slop || e > f.ephemEnd + Ccsds.Slop
  }

  /** The kernel loop of Initialize: each kernel's path is found, loaded
      into SPICE and added to the list once; a kernel with no path is an
      exception. */
  function KernelsSpec(f: Fields, kernels: seq<string>, findPath: string -> string): (r: (Fields, Outcome))
    ensures r.0 == f.(files := r.0.files, loaded := r.0.loaded)
    decreases |kernels|
  {
    if kernels == [] then (f, Pass)
    else
      var path := findPath(kernels[0]);
      if path == "" then (f, Fail(MissingKernelMessage(kernels[0])))
      else KernelsSpec(f.(loaded := f.loaded + {path}, files := AddIfAbsent(f.files, path)), kernels[1..], findPath)
  }

  /** The kernel loop changes only the kernel list and the loaded kernels;
      it keeps what the list held and keeps it free of repeats; it passes
      exactly when every kernel has a path, and then every path is loaded
      and listed; otherwise the exception names the first kernel with no
      path. */
  lemma {:induction false} KernelsLoaded(f: Fields, kernels: seq<string>, findPath: string -> string)
    ensures var r := KernelsSpec(f, kernels, findPath);
      && f.loaded <= r.0.loaded
      && (forall x :: x in f.files ==> x in r.0.files)
      && (NoDuplicates(f.files) ==> NoDuplicates(r.0.files))
      && (r.1 == Pass <==> forall k :: k in kernels ==> findPath(k) != "")
      && (r.1 == Pass ==> forall k :: k in kernels ==> findPath(k) in r.0.files && findPath(k) in r.0.loaded)
      && (r.1.Fail? ==> exists i :: 0 <= i < |kernels| && findPath(kernels[i]) == ""
                          && (forall j :: 0 <= j < i ==> findPath(kernels[j]) != "")
                          && r.1.msg == MissingKernelMessage(kernels[i]))
    decreases |kernels|
  {
    if kernels != [] {
      var path := findPath(kernels[0]);
      if path != "" {
        var g := f.(loaded := f.loaded + {path}, files := AddIfAbsent(f.files, path));
        if NoDuplicates(f.files) {
          AddIfAbsentKeepsDistinct(f.files, path);
        }
        KernelsLoaded(g, kernels[1..], findPath);
        var r := KernelsSpec(g, kernels[1..], findPath);
        assert forall k :: k in kernels ==> k == kernels[0] || k in kernels[1..];
        if r.1.Fail? {
          var i :| 0 <= i < |kernels[1..]| && findPath(kernels[1..][i]) == ""
                   && (forall j :: 0 <= j < i ==> findPath(kernels[1..][j]) != "")
                   && r.1.msg == MissingKernelMessage(kernels[1..][i]);
          assert findPath(kernels[i + 1]) == "";
          assert forall j :: 0 <= j < i + 1 ==> findPath(kernels[j]) != "" by {
            forall j | 0 <= j < i + 1
              ensures findPath(kernels[j]) != ""
            {
              if j > 0 {
                assert kernels[j] == kernels[1..][j - 1];
              }
            }
          }
        }
      } else {
        assert findPath(kernels[0]) == "";
      }
    }
  }

  /** The loaded kernels once every listed kernel is loaded. */
  function WithListed(loaded: set<string>, files: seq<string>): (r: set<string>)
    ensures forall k :: k in files ==> k in r
    ensures loaded <= r
  {
    loaded + set k | k in files
  }

  /** LoadSpans: the reader's coverage spans of the first NAIF id over the
      kernel list (the reader loads any listed kernel not yet loaded and
      clears the spans before it scans). */
  function LoadSpansSpec(f: Fields, sp: Kr.Spice): (Fields, Outcome)
    requires |f.naifIds| > 0
  {
    var g := f.(loaded := WithListed(f.loaded, f.files));
    match Kr.Spans(f.files, sp, f.naifIds[0])
    case Err(m) => (g.(spanStart := [], spanEnd := []), Fail(m))
    case Ok(p) => (g.(spanStart := p.0, spanEnd := p.1), Pass)
  }

  /** The loading of the one object: its NAIF id is kept, it must be a
      spacecraft with at least one kernel, the kernels are loaded and the
      spans read. */
  function ObjectSpec(f: Fields, o: SpkObject, findPath: string -> string, sp: Kr.Spice): (r: (Fields, Outcome))
    ensures r.0.naifIds == f.naifIds + [o.naifId] && r.0.readerSet == f.readerSet
  {
    var f1 := f.(naifIds := f.naifIds + [o.naifId]);
    if !o.isSpacecraft then (f1, Fail(NotSpacecraftMessage()))
    else if o.kernels == [] then (f1, Fail(NoKernelMessage(o.name)))
    else
      var k := KernelsSpec(f1, o.kernels, findPath);
      if k.1.Fail? then k
      else LoadSpansSpec(k.0, sp)
  }

  /** The loop of SetEphemSpan: the reader's start and end for each NAIF
      id in turn, each overwriting the last; a reader exception stops it
      with the span it reached. */
  function CoverageOver(files: seq<string>, ids: seq<int>, sp: Kr.Spice, start: real, end: real): ((real, real), Outcome)
    decreases |ids|
  {
    if ids == [] then ((start, end), Pass)
    else
      match Kr.StartAndEnd(files, sp, ids[0])
      case Err(m) => ((start, end), Fail(m))
      case Ok(p) => CoverageOver(files, ids[1..], sp, p.0, p.1)
  }

  /** The loop keeps the span of the last NAIF id: it passes exactly when
      the reader has a span for every id, and then the span is the last
      id's (or the one it started with, for no id). */
  lemma {:induction false} CoverageIsLastId(files: seq<string>, ids: seq<int>, sp: Kr.Spice, start: real, end: real)
    ensures CoverageOver(files, ids, sp, start, end).1 == Pass <==>
      forall i :: 0 <= i < |ids| ==> Kr.StartAndEnd(files, sp, ids[i]).Ok?
    ensures CoverageOver(files, ids, sp, start, end).1 == Pass ==>
      CoverageOver(files, ids, sp, start, end).0
        == (if ids == [] then (start, end) else Kr.StartAndEnd(files, sp, ids[|ids| - 1]).value)
    decreases |ids|
  {
    if ids != [] {
      var r := Kr.StartAndEnd(files, sp, ids[0]);
      if r.Ok? {
        CoverageIsLastId(files, ids[1..], sp, r.value.0, r.value.1);
        assert forall i :: 1 <= i < |ids| ==> ids[i] == ids[1..][i - 1];
        if |ids| > 1 {
          assert ids[|ids| - 1] == ids[1..][|ids[1..]| - 1];
        }
      }
    }
  }

  /** SetEphemSpan: a negative index is an exception; with a reader, the
      span is the reader's (ReaderSpanSpec). */
  function EphemSpanSpec(f: Fields, whichOne: int, env: SpkEnv): (r: (Fields, Outcome))
    ensures r.0.naifIds == f.naifIds && r.0.files == f.files && r.0.readerSet == f.readerSet
  {
    if whichOne < 0 then (f, Fail(InvalidIndexMessage()))
    else if !f.readerSet then (f, Pass)
    else ReaderSpanSpec(f, env)
  }

  /** The reader's span for the NAIF ids (the reader loads the listed
      kernels), then the base class's when no initial ephemeris epoch is
      set; an exception of the reader leaves the span it reached. */
  function ReaderSpanSpec(f: Fields, env: SpkEnv): (r: (Fields, Outcome))
    ensures r.0 == f.(loaded := r.0.loaded, ephemStart := r.0.ephemStart, ephemEnd := r.0.ephemEnd)
  {
    var g := if f.naifIds == [] then f else f.(loaded := WithListed(f.loaded, f.files));
    var c := CoverageOver(f.files, f.naifIds, env.sp, f.ephemStart, f.ephemEnd);
    var p := c.0;
    if c.1.Fail? then (g.(ephemStart := p.0, ephemEnd := p.1), c.1)
    else
      var q := if env.initialEphemEpochSet then p else env.baseSpan(p.0, p.1);
      (g.(ephemStart := q.0, ephemEnd := q.1), Pass)
  }

  /** The epoch Initialize starts from: the initial epoch moved by the time
      from it. */
  function StartEpoch(f: Fields, env: SpkEnv): real
  {
    env.initialEpoch + f.clock.fromEpoch / 86400.0
  }

  /** The first state: outside the span (beyond the slop) an exception
      when the propagator stops there, otherwise the warning is given once
      and no state is read; inside, the state is SPICE's. */
  function FirstStateSpec(f: Fields, env: SpkEnv, scName: string, name: string): (Fields, Result<bool>)
    requires |f.naifIds| > 0
  {
    var f1 := f.(clock := f.clock.(current := StartEpoch(f, env)));
    if Outside(f1.clock.current, f1) then OffSpanStartSpec(f1, env, name)
    else FetchFirstSpec(f1, env, scName)
  }

  /** An initial epoch outside the span. */
  function OffSpanStartSpec(f: Fields, env: SpkEnv, name: string): (Fields, Result<bool>)
  {
    var cur := f.clock.current;
    if env.stopOutside then (f, Err(InitOutsideMessage(name, f.ephemStart, f.ephemEnd, cur, env.num)))
    else (f.(warnOffEphem := false, state := Unset, objectEpoch := cur), Ok(true))
  }

  /** An initial epoch inside the span: SPICE's state there. */
  function FetchFirstSpec(f: Fields, env: SpkEnv, scName: string): (Fields, Result<bool>)
    requires |f.naifIds| > 0
  {
    var cur := f.clock.current;
    match env.fetch(scName, f.naifIds[0], cur, f.spkCentralBody)
    case Err(m) => (f, Err(m))
    case Ok(s) => (f.(state := s, objectEpoch := cur), Ok(true))
  }

  /** Initialize once the state manager is set: the object is loaded, then
      the span and the first state follow. */
  function LoadAndFinish(f: Fields, o: SpkObject, env: SpkEnv, name: string): (Fields, Result<bool>)
  {
    var l := ObjectSpec(f, o, env.findPath, env.sp);
    if l.1.Fail? then (l.0, Err(l.1.msg))
    else SpanAndFirstState(l.0, o, env, name)
  }

  /** The span, the warning flag set again, then the first state. */
  function SpanAndFirstState(f: Fields, o: SpkObject, env: SpkEnv, name: string): (Fields, Result<bool>)
    requires |f.naifIds| > 0
  {
    var s := EphemSpanSpec(f, 0, env);
    if s.1.Fail? then (s.0, Err(s.1.msg))
    else FirstStateSpec(s.0.(warnOffEphem := true), env, o.name, name)
  }

  /** Initialize: false when the base class fails; otherwise a reader
      exists and the step taken is zero (PrepareSpec). */
  function InitializeSpec(f: Fields, env: SpkEnv, name: string): (Fields, Result<bool>)
  {
    if !env.baseInitialized then (f, Ok(false))
    else PrepareSpec(f.(readerSet := true, clock := f.clock.(taken := 0.0)), env, name)
  }

  /** Exactly one object is required; the NAIF ids are cleared, and false
      is the answer until the state manager is set. */
  function PrepareSpec(f: Fields, env: SpkEnv, name: string): (Fields, Result<bool>)
  {
    if |env.objects| != 1 then (f, Err(OneObjectMessage()))
    else if !env.psmSet then (f.(naifIds := []), Ok(false))
    else LoadAndFinish(f.(naifIds := []), env.objects[0], env, name)
  }

  /** Initialize's answers: false without the base class (nothing changes)
      or without the state manager (a reader exists and no NAIF id is
      kept); an exception for anything but one object. */
  lemma InitializeOutcomes(f: Fields, env: SpkEnv, name: string)
    ensures !env.baseInitialized ==> InitializeSpec(f, env, name) == (f, Ok(false))
    ensures env.baseInitialized && |env.objects| != 1 ==>
      InitializeSpec(f, env, name).1 == Err(OneObjectMessage()) && InitializeSpec(f, env, name).0.readerSet
    ensures env.baseInitialized && |env.objects| == 1 && !env.psmSet ==>
      InitializeSpec(f, env, name) == (f.(readerSet := true, clock := f.clock.(taken := 0.0), naifIds := []), Ok(false))
  {
  }

  /** The checks on the object come first, in GMAT's order, and a load that
      does not throw keeps the object's NAIF id alone, lists and loads every
      kernel's path, and reads the reader's spans for that id over the
      list. */
  lemma {:induction false} ObjectLoads(f: Fields, o: SpkObject, findPath: string -> string, sp: Kr.Spice)
    requires f.naifIds == []
    ensures var r := ObjectSpec(f, o, findPath, sp);
      && r.0.naifIds == [o.naifId] && r.0.readerSet == f.readerSet
      && (!o.isSpacecraft ==> r.1 == Fail(NotSpacecraftMessage()))
      && (o.isSpacecraft && o.kernels == [] ==> r.1 == Fail(NoKernelMessage(o.name)))
      && (r.1 == Pass ==>
            && o.isSpacecraft && o.kernels != []
            && (forall k :: k in o.kernels ==> findPath(k) != "" && findPath(k) in r.0.files && findPath(k) in r.0.loaded)
            && Kr.Spans(r.0.files, sp, o.naifId) == Ok((r.0.spanStart, r.0.spanEnd)))
  {
    var f1 := f.(naifIds := f.naifIds + [o.naifId]);
    if o.isSpacecraft && o.kernels != [] {
      KernelsLoaded(f1, o.kernels, findPath);
      var k := KernelsSpec(f1, o.kernels, findPath);
      if k.1 == Pass {
        assert ObjectSpec(f, o, findPath, sp) == LoadSpansSpec(k.0, sp);
      }
    }
  }

  /** With a reader and the object's one NAIF id, the span is the reader's
      start and end for that id, or the base class's span of them when no
      initial ephemeris epoch is set. */
  lemma {:induction false} SpanIsReaders(f: Fields, id: int, env: SpkEnv)
    requires f.readerSet && f.naifIds == [id]
    ensures var r := EphemSpanSpec(f, 0, env);
      var se := Kr.StartAndEnd(f.files, env.sp, id);
      && r.0.naifIds == [id] && r.0.readerSet
      && (r.1 == Pass <==> se.Ok?)
      && (r.1.Fail? ==> r.1.msg == se.msg)
      && (r.1 == Pass ==> (r.0.ephemStart, r.0.ephemEnd) == (if env.initialEphemEpochSet then se.value else env.baseSpan(se.value.0, se.value.1)))
  {
    CoverageIsLastId(f.files, f.naifIds, env.sp, f.ephemStart, f.ephemEnd);
  }

  /** The first state: the spacecraft gets the initial epoch moved by the
      time from it, the propagator's epoch too; outside the span it is an
      exception exactly when the propagator stops, and otherwise the unset
      state with the warning spent; inside it is SPICE's state for the
      first NAIF id, a SPICE error being an exception. */
  lemma {:induction false} FirstStateAtStartEpoch(f: Fields, env: SpkEnv, scName: string, name: string)
    requires |f.naifIds| > 0
    ensures var r := FirstStateSpec(f, env, scName, name);
      var cur := StartEpoch(f, env);
      var q := env.fetch(scName, f.naifIds[0], cur, f.spkCentralBody);
      && r.0.clock.current == cur && r.0.naifIds == f.naifIds && r.0.ephemStart == f.ephemStart && r.0.ephemEnd == f.ephemEnd
      && (r.1 == Ok(true) || r.1.Err?)
      && (Outside(cur, f) ==>
            (r.1.Err? <==> env.stopOutside)
            && (!env.stopOutside ==> r.0.state == Unset && !r.0.warnOffEphem && r.0.objectEpoch == cur))
      && (!Outside(cur, f) ==>
            (r.1.Err? <==> q.Err?)
            && (q.Ok? ==> r.0.state == q.value && r.0.objectEpoch == cur && r.0.warnOffEphem == f.warnOffEphem))
  {
  }

  /** With the state manager set, Initialize never answers false: it
      throws or reads the first state. */
  lemma {:induction false} LoadedInitializeNeverFalse(f: Fields, o: SpkObject, env: SpkEnv, name: string)
    requires f.naifIds == [] && f.readerSet
    ensures LoadAndFinish(f, o, env, name).1 == Ok(true) || LoadAndFinish(f, o, env, name).1.Err?
  {
    var l := ObjectSpec(f, o, env.findPath, env.sp);
    ObjectLoads(f, o, env.findPath, env.sp);
    if l.1 == Pass {
      SpanIsReaders(l.0, o.naifId, env);
      var s := EphemSpanSpec(l.0, 0, env);
      if s.1 == Pass {
        FirstStateAtStartEpoch(s.0.(warnOffEphem := true), env, o.name, name);
      }
    }
  }

  /** Step: no reader means nothing to do but tell the spacecraft it
      propagated; otherwise the epoch moves by the step (no pause at the
      bounds) and StepAtSpec decides. */
  function StepSpec(f: Fields, t: Option<Target>, env: SpkEnv, name: string): (Fields, Result<bool>)
  {
    if t.None? then (f, Ok(true))
    else if !f.readerSet then (f.(propagated := true), Ok(true))
    else StepAtSpec(f.(clock := Ccsds.Advance(f.clock, f.ephemStart, f.ephemStep)), t.value, env, name)
  }

  /** The advanced epoch: outside the span beyond the slop it is an
      exception when the propagator stops there, and otherwise a step that
      answers false, stores the unset state and moves the last epoch and
      the spacecraft's epoch off the span; inside, FetchStepSpec. */
  function StepAtSpec(f: Fields, t: Target, env: SpkEnv, name: string): (Fields, Result<bool>)
  {
    var cur := f.clock.current;
    if Outside(cur, f) then
      if env.stopOutside then (f, Err(StepOutsideMessage(name, f.ephemStart, f.ephemEnd, cur, env.num)))
      else (f.(clock := f.clock.(last := cur), state := Unset, objectEpoch := cur), Ok(false))
    else FetchStepSpec(f, t, env)
  }

  /** A failed SPICE query is an exception only when the precision-time
      epoch is outside the span; otherwise the state read (or the unset
      state) is stored with the epoch, and the spacecraft is told it
      propagated. */
  function FetchStepSpec(f: Fields, t: Target, env: SpkEnv): (Fields, Result<bool>)
  {
    var cur := f.clock.current;
    var q := env.fetch(t.name, t.naifId, cur, f.spkCentralBody);
    if q.Err? && Outside(env.epochGT, f) then (f, Err(q.msg))
    else
      (f.(clock := f.clock.(last := cur), state := if q.Ok? then q.value else Unset, objectEpoch := cur, propagated := true),
       Ok(true))
  }

  /** A step answers true, false or an exception; false exactly when, with
      a reader and an object, the new epoch is outside the span and the
      propagator does not stop; an exception leaves the state, the
      spacecraft's epoch and its propagated flag as they were. */
  lemma StepOutcomes(f: Fields, t: Option<Target>, env: SpkEnv, name: string)
    ensures var r := StepSpec(f, t, env, name).1;
      r == Ok(true) || r == Ok(false) || r.Err?
    ensures StepSpec(f, t, env, name).1 == Ok(false) <==>
      t.Some? && f.readerSet && !env.stopOutside && Outside(Ccsds.Advance(f.clock, f.ephemStart, f.ephemStep).current, f)
    ensures StepSpec(f, t, env, name).1.Err? ==>
      var g := StepSpec(f, t, env, name).0;
      g.state == f.state && g.objectEpoch == f.objectEpoch && g.propagated == f.propagated
  {
  }

  /** A step that stays in the span with SPICE answering moves the epoch by
      exactly the step (when the clock agrees with the epoch), stores
      SPICE's state there, and tells the spacecraft it propagated. */
  lemma {:induction false} StepInSpan(f: Fields, t: Target, env: SpkEnv, name: string)
    requires f.readerSet
    requires f.clock.last != f.clock.current || Ccsds.Tracks(f.clock, f.ephemStart)
    requires !Outside(f.clock.current + f.ephemStep / 86400.0, f)
    requires env.fetch(t.name, t.naifId, f.clock.current + f.ephemStep / 86400.0, f.spkCentralBody).Ok?
    ensures var r := StepSpec(f, Some(t), env, name);
      var e := f.clock.current + f.ephemStep / 86400.0;
      && r.1 == Ok(true)
      && r.0.clock.current == e && r.0.clock.last == e && Ccsds.Tracks(r.0.clock, f.ephemStart)
      && r.0.state == env.fetch(t.name, t.naifId, e, f.spkCentralBody).value
      && r.0.objectEpoch == e && r.0.propagated
  {
    Ccsds.AdvanceMovesByStep(f.clock, f.ephemStart, f.ephemStep);
  }

  /** Behaviour kept as written: a step off the span that does not stop
      answers false but still stores the unset state, moves the last epoch
      to the epoch off the span and gives it to the spacecraft; a failed
      SPICE query inside the span is swallowed when the precision-time
      epoch lies in the span, leaving the unset state. */
  lemma {:induction false} StepKeepsGoingOffSpan(f: Fields, t: Target, env: SpkEnv, name: string)
    requires f.readerSet
    ensures var a := Ccsds.Advance(f.clock, f.ephemStart, f.ephemStep);
      var r := StepSpec(f, Some(t), env, name);
      && (Outside(a.current, f) && !env.stopOutside ==>
            r.1 == Ok(false) && r.0.state == Unset && r.0.clock.last == a.current
            && r.0.objectEpoch == a.current && r.0.propagated == f.propagated)
      && (!Outside(a.current, f) && env.fetch(t.name, t.naifId, a.current, f.spkCentralBody).Err?
          && !Outside(env.epochGT, f) ==>
            r.1 == Ok(true) && r.0.state == Unset)
  {
  }

  /** UpdateState: outside the span beyond the slop it is an exception when
      the propagator stops and otherwise the unset state; inside,
      UpdateInSpanSpec. */
  function UpdateStateSpec(f: Fields, t: Option<Target>, env: SpkEnv, name: string): (Fields, Outcome)
  {
    if t.None? || !f.readerSet then (f, Pass)
    else if Outside(f.clock.current, f) then
      if env.stopOutside then (f, Fail(AccessOutsideMessage(name, f.ephemStart, f.ephemEnd, f.clock.current, env.num)))
      else (f.(state := Unset), Pass)
    else UpdateInSpanSpec(f, t.value, env)
  }

  /** SPICE's state at the epoch, any SPICE error being an exception. */
  function UpdateInSpanSpec(f: Fields, t: Target, env: SpkEnv): (Fields, Outcome)
  {
    match env.fetch(t.name, t.naifId, f.clock.current, f.spkCentralBody)
    case Err(m) => (f, Fail(m))
    case Ok(s) => (f.(state := s), Pass)
  }

  /** UpdateState changes the state alone; inside the span it is SPICE's
      state at the epoch, and a SPICE error there is always an exception
      (unlike in Step). */
  lemma UpdateStateReadsEpoch(f: Fields, t: Target, env: SpkEnv, name: string)
    requires f.readerSet
    ensures var r := UpdateStateSpec(f, Some(t), env, name);
      var q := env.fetch(t.name, t.naifId, f.clock.current, f.spkCentralBody);
      && r.0 == f.(state := r.0.state)
      && (!Outside(f.clock.current, f) ==>
            (q.Ok? ==> r == (f.(state := q.value), Pass)) && (q.Err? ==> r.1 == Fail(q.msg)))
      && (Outside(f.clock.current, f) ==> (r.1.Fail? <==> env.stopOutside))
  {
  }

  /** operator=: no reader (the copy makes its own), and the warning flag
      and SPICE body of the other propagator; the kernel list is not
      copied. */
  function AssignSpec(f: Fields, warn: bool, spkCb: string): (r: Fields)
    ensures !r.readerSet && r.warnOffEphem == warn && r.spkCentralBody == spkCb
    ensures r.files == f.files && r.naifIds == f.naifIds && r.clock == f.clock && r.state == f.state
  {
    f.(readerSet := false, warnOffEphem := warn, spkCentralBody := spkCb)
  }

  // ---------------------------------------------------------------------
  // The propagator

  class SPKPropagator {
    var instanceName: string
    var spkFileNames: seq<string>
    var naifIds: seq<int>
    var centralBody: string
    var spkCentralBody: string
    var ephemStart: real
    var ephemEnd: real
    var ephemStep: real
    var currentEpoch: real
    var lastEpoch: real
    var timeFromEphemStart: real
    var timeFromEpoch: real
    var stepTaken: real
    var state: seq<real>
    /** The epoch given to the propagated spacecraft. */
    var objectEpoch: real
    /** Whether the spacecraft was told it has been propagated. */
    var propagated: bool
    var warnOffEphem: bool
    /** Whether the kernel reader (skr) exists. */
    var readerSet: bool
    /** The kernels loaded into SPICE. */
    var loadedKernels: set<string>
    var spanStart: seq<real>
    var spanEnd: seq<real>

    function Snap(): Fields
      reads this
    {
      Fields(spkFileNames, naifIds, spkCentralBody, ephemStart, ephemEnd, ephemStep,
             Ccsds.Clock(currentEpoch, lastEpoch, timeFromEphemStart, timeFromEpoch, stepTaken),
             state, objectEpoch, propagated, warnOffEphem, readerSet, loadedKernels, spanStart, spanEnd)
    }

    function Params(): ParamState
      reads this
    {
      ParamState(spkFileNames, centralBody, spkCentralBody)
    }

    /** A new propagator has no reader and no kernels, gives the
        off-ephemeris warning, and queries SPICE about the base class's
        central body. */
    constructor(name: string, cb: string)
      ensures instanceName == name && !readerSet && warnOffEphem
      ensures spkFileNames == [] && naifIds == [] && spkCentralBody == cb == centralBody
    {
      instanceName := name;
      spkFileNames, naifIds := [], [];
      centralBody, spkCentralBody := cb, cb;
      ephemStart, ephemEnd, ephemStep := 0.0, 0.0, 0.0;
      currentEpoch, lastEpoch := 0.0, -1.0;
      timeFromEphemStart, timeFromEpoch, stepTaken := -1.0, 0.0, 0.0;
      state := Unset;
      objectEpoch := 0.0;
      propagated := false;
      warnOffEphem := true;
      readerSet := false;
      loadedKernels := {};
      spanStart, spanEnd := [], [];
    }

    /** operator= from a propagator with the given warning flag and SPICE
        body. */
    method Assign(warn: bool, spkCb: string)
      modifies this
      ensures Snap() == AssignSpec(old(Snap()), warn, spkCb)
    {
      readerSet := false;
      warnOffEphem := warn;
      spkCentralBody := spkCb;
    }

    method SetStringParameter(p: SpkParam, value: string, baseSet: BaseSet) returns (r: Result<bool>)
      modifies this
      ensures var e := SetString(old(Params()), p, value, baseSet);
        && (e.Ok? ==> r == Ok(e.value.1) && Params() == e.value.0)
        && (e.Err? ==> r == Err(e.msg) && Params() == old(Params()).(centralBody := baseSet(p, value, old(centralBody)).1))
      ensures Snap() == old(Snap()).(files := spkFileNames, spkCentralBody := spkCentralBody)
    {
      if p == SpkFileNames {
        AddKernelName(value);
        return Ok(true);
      }
      r := SetInheritedString(p, value, baseSet);
    }

    /** A non-empty kernel name joins the list once. */
    method AddKernelName(value: string)
      modifies this
      ensures Snap() == old(Snap()).(files := if value != "" then AddIfAbsent(old(spkFileNames), value) else old(spkFileNames))
      ensures Params() == old(Params()).(files := spkFileNames)
    {
      if value != "" && value !in spkFileNames {
        spkFileNames := spkFileNames + [value];
      }
    }

    /** Any other parameter goes to the base class first. */
    method SetInheritedString(p: SpkParam, value: string, baseSet: BaseSet) returns (r: Result<bool>)
      requires p != SpkFileNames
      modifies this
      ensures var e := SetString(old(Params()), p, value, baseSet);
        && (e.Ok? ==> r == Ok(e.value.1) && Params() == e.value.0)
        && (e.Err? ==> r == Err(e.msg) && Params() == old(Params()).(centralBody := baseSet(p, value, old(centralBody)).1))
      ensures Snap() == old(Snap()).(spkCentralBody := spkCentralBody)
    {
      var b := baseSet(p, value, centralBody);
      centralBody := b.1;
      if b.0 && p == EphemCentralBody {
        if value == "Moon" {
          return Err(MoonMessage());
        }
        spkCentralBody := SpiceBody(centralBody);
      }
      return Ok(b.0);
    }

    method SetIndexedStringParameter(p: SpkParam, value: string, index: int,
                                     baseSet: (SpkParam, string, int) -> bool) returns (ok: bool)
      modifies this
      ensures (Params(), ok) == SetStringAt(old(Params()), p, value, index, baseSet)
      ensures Snap() == old(Snap()).(files := spkFileNames)
    {
      if p == SpkFileNames {
        if 0 <= index < |spkFileNames| {
          spkFileNames := spkFileNames[index := value];
          return true;
        }
        return false;
      }
      return baseSet(p, value, index);
    }

    /** Initialize. */
    method Initialize(env: SpkEnv) returns (r: Result<bool>)
      modifies this
      ensures (Snap(), r) == InitializeSpec(old(Snap()), env, instanceName)
      ensures instanceName == old(instanceName)
    {
      if !env.baseInitialized {
        return Ok(false);
      }
      MakeReader();
      r := Prepare(env);
    }

    /** A reader exists from here on, and no step is taken yet. */
    method MakeReader()
      modifies this
      ensures Snap() == old(Snap()).(readerSet := true, clock := old(Snap()).clock.(taken := 0.0))
      ensures instanceName == old(instanceName)
    {
      readerSet := true;
      stepTaken := 0.0;
    }

    method ClearNaifIds()
      modifies this
      ensures Snap() == old(Snap()).(naifIds := [])
      ensures instanceName == old(instanceName)
    {
      naifIds := [];
    }

    /** The object count and the state manager. */
    method Prepare(env: SpkEnv) returns (r: Result<bool>)
      modifies this
      ensures (Snap(), r) == PrepareSpec(old(Snap()), env, instanceName)
      ensures instanceName == old(instanceName)
    {
      if |env.objects| != 1 {
        return Err(OneObjectMessage());
      }
      ClearNaifIds();
      if !env.psmSet {
        return Ok(false);
      }
      r := LoadObject(env.objects[0], env);
    }

    /** Initialize once the state manager is set. */
    method LoadObject(o: SpkObject, env: SpkEnv) returns (r: Result<bool>)
      modifies this
      ensures (Snap(), r) == LoadAndFinish(old(Snap()), o, env, instanceName)
      ensures instanceName == old(instanceName)
    {
      var out := LoadOne(o, env);
      if out.Fail? {
        return Err(out.msg);
      }
      r := SpanAndState(o, env);
    }

    /** The span, the warning flag and the first state. */
    method SpanAndState(o: SpkObject, env: SpkEnv) returns (r: Result<bool>)
      requires |naifIds| > 0
      modifies this
      ensures (Snap(), r) == SpanAndFirstState(old(Snap()), o, env, instanceName)
      ensures instanceName == old(instanceName)
    {
      var out := SetEphemSpan(0, env);
      if out.Fail? {
        return Err(out.msg);
      }
      warnOffEphem := true;
      r := SetFirstState(env, o.name);
    }

    /** The NAIF id, the checks on the object, its kernels and the
        spans. */
    method LoadOne(o: SpkObject, env: SpkEnv) returns (out: Outcome)
      modifies this
      ensures (Snap(), out) == ObjectSpec(old(Snap()), o, env.findPath, env.sp)
      ensures instanceName == old(instanceName)
    {
      naifIds := naifIds + [o.naifId];
      if !o.isSpacecraft {
        return Fail(NotSpacecraftMessage());
      }
      if o.kernels == [] {
        return Fail(NoKernelMessage(o.name));
      }
      out := LoadKernels(o.kernels, env.findPath);
      if out.Fail? {
        return;
      }
      out := LoadSpans(env.sp);
    }

    /** The kernel loop of Initialize. */
    method LoadKernels(kernels: seq<string>, findPath: string -> string) returns (out: Outcome)
      modifies this
      ensures (Snap(), out) == KernelsSpec(old(Snap()), kernels, findPath)
      ensures instanceName == old(instanceName)
    {
      var j := 0;
      while j < |kernels|
        invariant 0 <= j <= |kernels|
        invariant KernelsSpec(Snap(), kernels[j..], findPath) == KernelsSpec(old(Snap()), kernels, findPath)
        invariant instanceName == old(instanceName)
      {
        var fullPath := findPath(kernels[j]);
        if fullPath == "" {
          return Fail(MissingKernelMessage(kernels[j]));
        }
        loadedKernels := loadedKernels + {fullPath};
        spkFileNames := AddIfAbsent(spkFileNames, fullPath);
        assert kernels[j..][1..] == kernels[j + 1..];
        j := j + 1;
      }
      return Pass;
    }

    /** LoadSpans. */
    method LoadSpans(sp: Kr.Spice) returns (out: Outcome)
      requires |naifIds| > 0
      modifies this
      ensures (Snap(), out) == LoadSpansSpec(old(Snap()), sp)
      ensures instanceName == old(instanceName)
    {
      loadedKernels := WithListed(loadedKernels, spkFileNames);
      spanStart, spanEnd := [], [];
      var s := Kr.Spans(spkFileNames, sp, naifIds[0]);
      if s.Err? {
        return Fail(s.msg);
      }
      spanStart, spanEnd := s.value.0, s.value.1;
      return Pass;
    }

    /** SetEphemSpan. */
    method SetEphemSpan(whichOne: int, env: SpkEnv) returns (out: Outcome)
      modifies this
      ensures (Snap(), out) == EphemSpanSpec(old(Snap()), whichOne, env)
      ensures instanceName == old(instanceName)
    {
      if whichOne < 0 {
        return Fail(InvalidIndexMessage());
      }
      if !readerSet {
        return Pass;
      }
      out := ReaderSpan(env);
    }

    /** The reader's span, then the base class's. */
    method ReaderSpan(env: SpkEnv) returns (out: Outcome)
      modifies this
      ensures (Snap(), out) == ReaderSpanSpec(old(Snap()), env)
      ensures instanceName == old(instanceName)
    {
      out := Coverage(env.sp);
      if out.Fail? {
        return;
      }
      if !env.initialEphemEpochSet {
        ephemStart, ephemEnd := env.baseSpan(ephemStart, ephemEnd).0, env.baseSpan(ephemStart, ephemEnd).1;
      }
    }

    /** The loop of SetEphemSpan over the NAIF ids. */
    method Coverage(sp: Kr.Spice) returns (out: Outcome)
      modifies this
      ensures ((ephemStart, ephemEnd), out) == CoverageOver(old(spkFileNames), old(naifIds), sp, old(ephemStart), old(ephemEnd))
      ensures Snap() == (if old(naifIds) == [] then old(Snap()) else old(Snap()).(loaded := WithListed(old(loadedKernels), old(spkFileNames))))
                          .(ephemStart := ephemStart, ephemEnd := ephemEnd)
      ensures instanceName == old(instanceName)
    {
      if naifIds != [] {
        loadedKernels := WithListed(loadedKernels, spkFileNames);
      }
      var i := 0;
      while i < |naifIds|
        invariant 0 <= i <= |naifIds|
        invariant CoverageOver(spkFileNames, naifIds[i..], sp, ephemStart, ephemEnd)
          == CoverageOver(old(spkFileNames), old(naifIds), sp, old(ephemStart), old(ephemEnd))
        invariant Snap() == (if old(naifIds) == [] then old(Snap()) else old(Snap()).(loaded := WithListed(old(loadedKernels), old(spkFileNames))))
                              .(ephemStart := ephemStart, ephemEnd := ephemEnd)
        invariant instanceName == old(instanceName)
      {
        var se := Kr.StartAndEnd(spkFileNames, sp, naifIds[i]);
        if se.Err? {
          return Fail(se.msg);
        }
        ephemStart, ephemEnd := se.value.0, se.value.1;
        assert naifIds[i..][1..] == naifIds[i + 1..];
        i := i + 1;
      }
      return Pass;
    }

    /** The first state of Initialize. */
    method SetFirstState(env: SpkEnv, scName: string) returns (r: Result<bool>)
      requires |naifIds| > 0
      modifies this
      ensures (Snap(), r) == FirstStateSpec(old(Snap()), env, scName, instanceName)
      ensures instanceName == old(instanceName)
    {
      currentEpoch := env.initialEpoch + timeFromEpoch / 86400.0;
      if currentEpoch < ephemStart - Ccsds.Slop || currentEpoch > ephemEnd + Ccsds.Slop {
        r := OffSpanStart(env);
      } else {
        r := FetchFirst(env, scName);
      }
    }

    method OffSpanStart(env: SpkEnv) returns (r: Result<bool>)
      modifies this
      ensures (Snap(), r) == OffSpanStartSpec(old(Snap()), env, instanceName)
      ensures instanceName == old(instanceName)
    {
      if env.stopOutside {
        return Err(InitOutsideMessage(instanceName, ephemStart, ephemEnd, currentEpoch, env.num));
      }
      warnOffEphem := false;
      state := Unset;
      objectEpoch := currentEpoch;
      return Ok(true);
    }

    method FetchFirst(env: SpkEnv, scName: string) returns (r: Result<bool>)
      requires |naifIds| > 0
      modifies this
      ensures (Snap(), r) == FetchFirstSpec(old(Snap()), env, scName)
      ensures instanceName == old(instanceName)
    {
      var q := env.fetch(scName, naifIds[0], currentEpoch, spkCentralBody);
      if q.Err? {
        return Err(q.msg);
      }
      state := q.value;
      objectEpoch := currentEpoch;
      return Ok(true);
    }

    /** Step for the propagated object, if there is one. */
    method Step(t: Option<Target>, env: SpkEnv) returns (r: Result<bool>)
      modifies this
      ensures (Snap(), r) == StepSpec(old(Snap()), t, env, instanceName)
      ensures instanceName == old(instanceName)
    {
      if t.None? {
        return Ok(true);
      }
      if !readerSet {
        propagated := true;
        return Ok(true);
      }
      AdvanceEpoch();
      r := StepAt(t.value, env);
    }

    /** The span check of Step at the advanced epoch. */
    method StepAt(t: Target, env: SpkEnv) returns (r: Result<bool>)
      modifies this
      ensures (Snap(), r) == StepAtSpec(old(Snap()), t, env, instanceName)
      ensures instanceName == old(instanceName)
    {
      if currentEpoch < ephemStart - Ccsds.Slop || currentEpoch > ephemEnd + Ccsds.Slop {
        if env.stopOutside {
          return Err(StepOutsideMessage(instanceName, ephemStart, ephemEnd, currentEpoch, env.num));
        }
        state := Unset;
        lastEpoch := currentEpoch;
        objectEpoch := currentEpoch;
        return Ok(false);
      }
      r := FetchStep(t, env);
    }

    /** The SPICE query of Step. */
    method FetchStep(t: Target, env: SpkEnv) returns (r: Result<bool>)
      modifies this
      ensures (Snap(), r) == FetchStepSpec(old(Snap()), t, env)
      ensures instanceName == old(instanceName)
    {
      var outState := Unset;
      var q := env.fetch(t.name, t.naifId, currentEpoch, spkCentralBody);
      if q.Err? {
        if env.epochGT < ephemStart - Ccsds.Slop || env.epochGT > ephemEnd + Ccsds.Slop {
          return Err(q.msg);
        }
      } else {
        outState := q.value;
      }
      state := outState;
      lastEpoch := currentEpoch;
      objectEpoch := currentEpoch;
      propagated := true;
      return Ok(true);
    }

    /** The epoch arithmetic of Step. */
    method AdvanceEpoch()
      modifies this
      ensures Snap() == old(Snap()).(clock := Ccsds.Advance(old(Snap()).clock, ephemStart, ephemStep))
      ensures instanceName == old(instanceName)
    {
      if lastEpoch != currentEpoch {
        lastEpoch := currentEpoch;
        timeFromEphemStart := (lastEpoch - ephemStart) * 86400.0;
      }
      timeFromEphemStart := timeFromEphemStart + ephemStep;
      timeFromEpoch := timeFromEpoch + ephemStep;
      stepTaken := ephemStep;
      currentEpoch := ephemStart + timeFromEphemStart / 86400.0;
    }

    /** UpdateState for the propagated object, if there is one. */
    method UpdateState(t: Option<Target>, env: SpkEnv) returns (out: Outcome)
      modifies this
      ensures (Snap(), out) == UpdateStateSpec(old(Snap()), t, env, instanceName)
    {
      if t.None? || !readerSet {
        return Pass;
      }
      if currentEpoch < ephemStart - Ccsds.Slop || currentEpoch > ephemEnd + Ccsds.Slop {
        if env.stopOutside {
          return Fail(AccessOutsideMessage(instanceName, ephemStart, ephemEnd, currentEpoch, env.num));
        }
        state := Unset;
        return Pass;
      }
      out := UpdateInSpan(t.value, env);
    }

    method UpdateInSpan(t: Target, env: SpkEnv) returns (out: Outcome)
      modifies this
      ensures (Snap(), out) == UpdateInSpanSpec(old(Snap()), t, env)
    {
      var q := env.fetch(t.name, t.naifId, currentEpoch, spkCentralBody);
      if q.Err? {
        return Fail(q.msg);
      }
      state := q.value;
      return Pass;
    }
  }
}
