/** The SPICE orbit kernel reader (src/base/spice/SpiceOrbitKernelReader.cpp):
    the coverage of a body on a list of SPK kernels (as one start and end, or
    as one span per coverage window), the state of a target with the
    failure sentinel, and the bookkeeping of "Insufficient ephemeris data"
    messages that turns gaps into warnings or errors.

    CSPICE itself is a parameter: what getfat_c, spkobj_c and spkcov_c report
    for each kernel (Spice.info), the conversions between SPICE ephemeris time
    and A.1 modified Julian dates, and the answer of spkgeo_c / spkezr_c. */
module SpiceOrbitKernelReaderModel {
  import opened Common
  import opened CCSDSOEMReaderModel

  // ---------------------------------------------------------------------
  // What CSPICE reports

  /** One coverage window of a body on a kernel, in SPICE ephemeris time. */
  datatype Window = Window(b: real, e: real)

  /** What CSPICE reports about one kernel file: its type from getfat_c (or
      the long error message), the bodies spkobj_c lists on it, and the
      windows spkcov_c gives per body (or the long error message). A body
      without an entry has no windows. */
  datatype KernelInfo = KernelInfo(
    fileType: Result<string>,
    ids: seq<int>,
    coverage: map<int, Result<seq<Window>>>)

  /** The CSPICE side of the reader: the kernel files by name and the time
      conversions SpiceTimeToA1 and A1ToSpiceTime. */
  datatype Spice = Spice(info: string -> KernelInfo, toA1: real -> real, toEt: real -> real)

  function CoverageOf(k: KernelInfo, id: int): Result<seq<Window>>
  {
    if id in k.coverage then k.coverage[id] else Ok([])
  }

  /** s without leading and trailing blanks. */
  function Strip(s: string): (r: string)
    ensures |r| <= |s|
    decreases |s|
  {
    if s == [] then []
    else if s[0] == ' ' then Strip(s[1..])
    else if s[|s| - 1] == ' ' then Strip(s[..|s| - 1])
    else s
  }

  /** eqstr_c(kind, "spk"): equal ignoring case and surrounding blanks. */
  predicate IsSpk(kind: string)
  {
    Upper(Strip(kind)) == "SPK"
  }

  function KernelTypeMessage(kernel: string, cspice: string): string
  {
    "Error determining type of kernel \"" + kernel + "\".  Message received from CSPICE is: [" + cspice + "]\n"
  }

  function CoverageMessage(kernel: string, cspice: string): string
  {
    "Error determining coverage for SPK kernel \"" + kernel + "\".  Message received from CSPICE is: [" + cspice + "]\n"
  }

  function NoDataMessage(id: int): string
  {
    "Error - no data available for body with NAIF ID " + IntToString(id) + " on specified SPK kernels\n"
  }

  // ---------------------------------------------------------------------
  // The scan over the kernels

  /** What the scanning loop does with one kernel: the windows it collects
      and the idOnKernel flag it leaves, or the exception it throws. The
      flag is set when the kernel lists the body and is never cleared, so
      every later SPK kernel is asked for the body's coverage too. */
  function KernelStep(name: string, k: KernelInfo, id: int, latched: bool): Result<(seq<Window>, bool)>
  {
    match k.fileType
    case Err(m) => Err(KernelTypeMessage(name, m))
    case Ok(kind) =>
      if !IsSpk(kind) then Ok(([], latched))
      else
        var latch := latched || id in k.ids;
        if !latch then Ok(([], latch))
        else
          match CoverageOf(k, id)
          case Err(m) => Err(CoverageMessage(name, m))
          case Ok(ws) => Ok((ws, latch))
  }

  /** acc followed by the windows of r, or r's error. */
  function Join(acc: seq<Window>, r: Result<seq<Window>>): (j: Result<seq<Window>>)
  {
    if r.Err? then r else Ok(acc + r.value)
  }

  /** The windows the loop collects from kernels, in kernel order, or the
      first exception it throws. */
  function Collected(kernels: seq<string>, sp: Spice, id: int, latched: bool): Result<seq<Window>>
    decreases |kernels|
  {
    if kernels == [] then Ok([])
    else
      match KernelStep(kernels[0], sp.info(kernels[0]), id, latched)
      case Err(m) => Err(m)
      case Ok(p) => Join(p.0, Collected(kernels[1..], sp, id, p.1))
  }

  /** The windows of the SPK kernels that list the body: the scan as it
      would be with the flag reset for every kernel. */
  function ListedWindows(kernels: seq<string>, sp: Spice, id: int): Result<seq<Window>>
    decreases |kernels|
  {
    if kernels == [] then Ok([])
    else
      match KernelStep(kernels[0], sp.info(kernels[0]), id, false)
      case Err(m) => Err(m)
      case Ok(p) => Join(p.0, ListedWindows(kernels[1..], sp, id))
  }

  /** CSPICE reports no windows for a body a kernel does not list. */
  predicate NoStrayCoverage(kernels: seq<string>, sp: Spice, id: int)
  {
    forall k :: k in kernels && id !in sp.info(k).ids ==> CoverageOf(sp.info(k), id) == Ok([])
  }

  /** The flag that is never reset changes nothing as long as CSPICE reports
      no windows for bodies a kernel does not list: the scan collects
      exactly the windows of the kernels that list the body. */
  lemma {:induction false} LatchIsHarmless(kernels: seq<string>, sp: Spice, id: int, latched: bool)
    requires NoStrayCoverage(kernels, sp, id)
    ensures Collected(kernels, sp, id, latched) == ListedWindows(kernels, sp, id)
    decreases |kernels|
  {
    if kernels != [] {
      assert NoStrayCoverage(kernels[1..], sp, id) by {
        forall k | k in kernels[1..] ensures k in kernels { }
      }
      var k := sp.info(kernels[0]);
      var s1 := KernelStep(kernels[0], k, id, latched);
      var s0 := KernelStep(kernels[0], k, id, false);
      if s1.Ok? {
        assert s0.Ok? && s1.value.0 == s0.value.0;
        LatchIsHarmless(kernels[1..], sp, id, s1.value.1);
        LatchIsHarmless(kernels[1..], sp, id, s0.value.1);
      }
    }
  }

  // ---------------------------------------------------------------------
  // Start and end of the coverage

  function MinReal(a: real, b: real): real { if b < a then b else a }
  function MaxReal(a: real, b: real): real { if b > a then b else a }

  /** The start and end the loop over the windows leaves: the first window
      sets them and every window can lower the start or raise the end. */
  function BoundsOf(ws: seq<Window>, toA1: real -> real): (real, real)
    requires ws != []
    decreases |ws|
  {
    if |ws| == 1 then (toA1(ws[0].b), toA1(ws[0].e))
    else
      var p := BoundsOf(ws[..|ws| - 1], toA1);
      var w := ws[|ws| - 1];
      (MinReal(p.0, toA1(w.b)), MaxReal(p.1, toA1(w.e)))
  }

  /** The start is the earliest window begin and the end the latest window
      end, both in A.1. */
  lemma {:induction false} BoundsAreExtremes(ws: seq<Window>, toA1: real -> real)
    requires ws != []
    ensures forall w :: w in ws ==> BoundsOf(ws, toA1).0 <= toA1(w.b) && toA1(w.e) <= BoundsOf(ws, toA1).1
    ensures exists w :: w in ws && BoundsOf(ws, toA1).0 == toA1(w.b)
    ensures exists w :: w in ws && BoundsOf(ws, toA1).1 == toA1(w.e)
    decreases |ws|
  {
    if |ws| > 1 {
      var front := ws[..|ws| - 1];
      var w := ws[|ws| - 1];
      BoundsAreExtremes(front, toA1);
      assert forall x :: x in ws ==> x in front || x == w;
      var p := BoundsOf(front, toA1);
      var wb :| wb in front && p.0 == toA1(wb.b);
      var we :| we in front && p.1 == toA1(we.e);
      assert wb in ws && we in ws;
    } else {
      assert ws[0] in ws;
    }
  }

  /** GetCoverageStartAndEnd: the earliest begin and latest end, in A.1, of
      the windows the scan collects, or the scan's exception, or the
      "no data" exception when there is no window. */
  function StartAndEnd(kernels: seq<string>, sp: Spice, id: int): Result<(real, real)>
  {
    match Collected(kernels, sp, id, false)
    case Err(m) => Err(m)
    case Ok(ws) => if ws == [] then Err(NoDataMessage(id)) else Ok(BoundsOf(ws, sp.toA1))
  }

  /** GetCoverageSpans: one (start, end) pair per collected window, in the
      order of the scan, or the scan's exception, or the "no data" exception. */
  function Spans(kernels: seq<string>, sp: Spice, id: int): Result<(seq<real>, seq<real>)>
  {
    match Collected(kernels, sp, id, false)
    case Err(m) => Err(m)
    case Ok(ws) =>
      if ws == [] then Err(NoDataMessage(id))
      else Ok((seq(|ws|, i requires 0 <= i < |ws| => sp.toA1(ws[i].b)),
               seq(|ws|, i requires 0 <= i < |ws| => sp.toA1(ws[i].e))))
  }

  /** The two coverage queries agree: spans exist exactly when a start and
      end exist, the start is the earliest span start and the end the latest
      span end. */
  lemma SpansAgreeWithStartAndEnd(kernels: seq<string>, sp: Spice, id: int)
    ensures Spans(kernels, sp, id).Ok? <==> StartAndEnd(kernels, sp, id).Ok?
    ensures Spans(kernels, sp, id).Err? ==> Spans(kernels, sp, id).msg == StartAndEnd(kernels, sp, id).msg
    ensures Spans(kernels, sp, id).Ok? ==>
      var (starts, ends) := Spans(kernels, sp, id).value;
      var (s, e) := StartAndEnd(kernels, sp, id).value;
      |starts| == |ends| > 0 &&
      (forall i :: 0 <= i < |starts| ==> s <= starts[i] && ends[i] <= e) &&
      (exists i :: 0 <= i < |starts| && starts[i] == s) &&
      (exists i :: 0 <= i < |ends| && ends[i] == e)
  {
    var c := Collected(kernels, sp, id, false);
    if c.Ok? && c.value != [] {
      var ws := c.value;
      BoundsAreExtremes(ws, sp.toA1);
      var (starts, ends) := Spans(kernels, sp, id).value;
      var (s, e) := BoundsOf(ws, sp.toA1);
      forall i | 0 <= i < |starts|
        ensures s <= starts[i] && ends[i] <= e
      {
        assert ws[i] in ws;
      }
      var wb :| wb in ws && s == sp.toA1(wb.b);
      var ib :| 0 <= ib < |ws| && ws[ib] == wb;
      assert starts[ib] == s;
      var we :| we in ws && e == sp.toA1(we.e);
      var ie :| 0 <= ie < |ws| && ws[ie] == we;
      assert ends[ie] == e;
    }
  }

  lemma CollectedStep(kernels: seq<string>, sp: Spice, id: int, latched: bool, i: nat, acc: seq<Window>)
    requires i < |kernels|
    requires KernelStep(kernels[i], sp.info(kernels[i]), id, latched).Ok?
    ensures
      var p := KernelStep(kernels[i], sp.info(kernels[i]), id, latched).value;
      Join(acc, Collected(kernels[i..], sp, id, latched)) == Join(acc + p.0, Collected(kernels[i + 1..], sp, id, p.1))
  {
    assert kernels[i..][1..] == kernels[i + 1..];
    var p := KernelStep(kernels[i], sp.info(kernels[i]), id, latched).value;
    var rest := Collected(kernels[i + 1..], sp, id, p.1);
    if rest.Ok? {
      assert acc + (p.0 + rest.value) == (acc + p.0) + rest.value;
    }
  }

  /** The window loop: the first window of all sets the start and end,
      every later one can lower the start or raise the end. */
  method FoldWindows(ws: seq<Window>, toA1: real -> real, ghost acc: seq<Window>, first: bool, start0: real, end0: real)
    returns (start: real, end: real)
    requires first <==> acc == []
    requires !first ==> (start0, end0) == BoundsOf(acc, toA1)
    ensures acc + ws != [] ==> (start, end) == BoundsOf(acc + ws, toA1)
    ensures acc + ws == [] ==> start == start0 && end == end0
  {
    start, end := start0, end0;
    var firstInt := first;
    assert acc + ws[..0] == acc;
    for jj := 0 to |ws|
      invariant firstInt <==> acc + ws[..jj] == []
      invariant !firstInt ==> (start, end) == BoundsOf(acc + ws[..jj], toA1)
      invariant firstInt ==> start == start0 && end == end0
    {
      ghost var after := acc + ws[..jj + 1];
      assert after[..|after| - 1] == acc + ws[..jj];
      var bA1 := toA1(ws[jj].b);
      var eA1 := toA1(ws[jj].e);
      if firstInt {
        start, end := bA1, eA1;
        firstInt := false;
      } else {
        if bA1 < start { start := bA1; }
        if eA1 > end { end := eA1; }
      }
    }
    assert ws[..|ws|] == ws;
  }

  // ---------------------------------------------------------------------
  // Target names and the failure sentinel

  const RealMax: real := 1.7976931348623157 * Pow(10.0, 308)

  /** The state GetTargetState returns when the SPICE call failed. */
  const FailureState: seq<real> := [-RealMax, -RealMax, -RealMax, -RealMax, -RealMax, -RealMax]

  /** The name passed to CSPICE: upper-cased, with LUNA read as MOON and
      SOLARSYSTEMBARYCENTER as SSB. */
  function TargetNameToUse(name: string): string
  {
    var u := Upper(name);
    if u == "LUNA" then "MOON" else if u == "SOLARSYSTEMBARYCENTER" then "SSB" else u
  }

  predicate NoLowerCase(s: string)
  {
    forall i :: 0 <= i < |s| ==> !('a' <= s[i] <= 'z')
  }

  /** The name passed to CSPICE does not depend on the case of the target
      name, has no lower-case letter, never is LUNA or SOLARSYSTEMBARYCENTER,
      and a name that already is the result maps to itself. */
  lemma TargetNameNormalises(a: string, b: string)
    requires Upper(a) == Upper(b)
    ensures TargetNameToUse(a) == TargetNameToUse(b)
    ensures NoLowerCase(TargetNameToUse(a))
    ensures TargetNameToUse(a) != "LUNA" && TargetNameToUse(a) != "SOLARSYSTEMBARYCENTER"
    ensures TargetNameToUse(TargetNameToUse(a)) == TargetNameToUse(a)
  {
    var u := Upper(a);
    assert NoLowerCase(u);
    assert Upper(u) == u;
    assert Upper("MOON") == "MOON";
    assert Upper("SSB") == "SSB";
    assert "MOON"[0] != "LUNA"[0];
  }

  lemma TargetNameExamples()
    ensures TargetNameToUse("Luna") == "MOON"
    ensures TargetNameToUse("SolarSystemBarycenter") == "SSB"
    ensures TargetNameToUse("Mars") == "MARS"
  {
    assert Upper("Luna") == "LUNA";
    assert Upper("SolarSystemBarycenter") == "SOLARSYSTEMBARYCENTER";
    assert Upper("Mars") == "MARS";
  }

  /** The call GetTargetState makes: spkgeo_c by NAIF id when the
      aberration is "NONE", otherwise spkezr_c by the name. */
  datatype StateQuery =
    | ById(naifId: int, et: real, frame: string, observerId: int)
    | ByName(name: string, et: real, frame: string, aberration: string, observer: string)

  /** The outcome of the CSPICE state call: the state, or failed_c() with
      the long error message. */
  datatype SpiceAnswer = Answered(state: seq<real>) | Failed(cspice: string)

  function QueryFor(targetName: string, targetId: int, atTime: real, observer: string, observerId: int,
                    frame: string, aberration: string, sp: Spice): StateQuery
  {
    if aberration == "NONE" then ById(targetId, sp.toEt(atTime), frame, observerId)
    else ByName(TargetNameToUse(targetName), sp.toEt(atTime), frame, aberration, observer)
  }

  // ---------------------------------------------------------------------
  // Gap messages

  const GapPrefix: string := "Insufficient ephemeris data"

  /** A CSPICE message that StoreErrorMessage keeps as a data gap. */
  predicate IsGapMessage(err: string)
  {
    |err| > 27 && err[..27] == GapPrefix
  }

  /** The bucket of a gap message: its text without the last 26 characters. */
  function GapKey(err: string): string
    requires IsGapMessage(err)
  {
    err[..|err| - 26]
  }

  /** The epoch of a gap message: its last 25 characters. */
  function GapEpoch(err: string): string
    requires IsGapMessage(err)
  {
    err[|err| - 25..]
  }

  /** The key, the one character between key and epoch, and the epoch make up
      the whole message, and messages that differ only in their last 26
      characters share a bucket. */
  lemma GapSplit(err: string, other: string)
    requires IsGapMessage(err) && IsGapMessage(other)
    ensures GapKey(err) + [err[|err| - 26]] + GapEpoch(err) == err
    ensures |GapEpoch(err)| == 25
    ensures |other| == |err| && other[..|err| - 26] == err[..|err| - 26] ==> GapKey(other) == GapKey(err)
  {
    assert err == err[..|err| - 26] + [err[|err| - 26]] + err[|err| - 25..];
  }

  function StateErrorMessage(target: string, cspice: string): string
  {
    "Error getting state for body \"" + target + "\". Message received from CSPICE is: [ " + cspice + " ]\n"
  }

  /** The stored epochs of a bucket: one or more 25-character epochs. */
  predicate IsEpochList(v: string)
  {
    |v| >= 25 && |v| % 25 == 0
  }

  function Prefix(s: string, n: nat): string
  {
    if |s| <= n then s else s[..n]
  }

  function GapWarning(target: string, key: string, epochs: string): string
    requires |epochs| >= 25
  {
    "WARNING data gaps in Spice file present for body \"" + target + "\". Message received from CSPICE is: "
      + key + "s: " + Prefix(epochs, 24) + " to " + epochs[|epochs| - 25..] + "\n\n"
  }

  function GapNotice(target: string): string
  {
    "WARNING 5 or more data gaps were found in the spice file present for body " + target + " no more warnings will be issued\n"
  }

  function GapError(target: string, key: string, epochs: string): string
  {
    StateErrorMessage(target, key + " " + Prefix(epochs, 24))
  }

  /** keys lists the keys of the map once each, in std::string order. */
  ghost predicate InKeyOrder(keys: seq<string>, m: map<string, string>)
  {
    && (forall i, j :: 0 <= i < j < |keys| ==> Below(keys[i], keys[j]))
    && (forall k :: k in m <==> k in keys)
  }

  /** A line PrintWarningMessage shows: the warning for one bucket, or the
      notice that no more warnings follow. */
  datatype Shown = GapShown(key: string, epochs: string) | NoticeShown

  /** The text of a shown line. */
  function ShownText(target: string, line: Shown): string
    requires line.GapShown? ==> IsEpochList(line.epochs)
  {
    match line
    case GapShown(key, epochs) => GapWarning(target, key, epochs)
    case NoticeShown => GapNotice(target)
  }

  /** The lines PrintWarningMessage shows for keys[i..], the gap counter
      standing at found before keys[i]. */
  function WarningLines(keys: seq<string>, m: map<string, string>, found: int, i: nat): seq<Shown>
    requires i <= |keys|
    requires forall k :: k in keys ==> k in m
    decreases |keys| - i
  {
    if i == |keys| then []
    else
      var f := found + 1;
      var line := if f < 5 then [GapShown(keys[i], m[keys[i]])] else if f == 5 then [NoticeShown] else [];
      line + WarningLines(keys, m, f, i + 1)
  }

  /** How many of the gap counts a < n <= b are shown as lines: those up to 5. */
  function ShownCount(a: int, b: int): int
  {
    if a >= 5 then 0 else if b < 5 then b - a else 5 - a
  }

  /** The warnings stop at the fifth gap counted: a gap line is shown for
      each gap counted below 5, one notice for the fifth, nothing after; each
      gap line shows a bucket of the map under its key. */
  lemma {:induction false} WarningLinesCount(keys: seq<string>, m: map<string, string>, found: int, i: nat)
    requires i <= |keys|
    requires forall k :: k in keys ==> k in m
    ensures |WarningLines(keys, m, found, i)| == ShownCount(found, found + |keys| - i)
    ensures NoticeShown in WarningLines(keys, m, found, i) <==> found < 5 <= found + |keys| - i
    ensures forall l :: l in WarningLines(keys, m, found, i) && l.GapShown? ==> l.key in m && l.epochs == m[l.key]
    decreases |keys| - i
  {
    if i < |keys| {
      WarningLinesCount(keys, m, found + 1, i + 1);
      assert keys[i] in keys;
    }
  }

  /** The buckets once a gap message is kept: its epoch is appended to the
      bucket of its key. */
  function StoredGap(m: map<string, string>, err: string): (r: map<string, string>)
    requires IsGapMessage(err)
    ensures GapKey(err) in r && r != map[]
  {
    m[GapKey(err) := Lookup(m, GapKey(err)) + GapEpoch(err)]
  }

  /** The coverage of a body the coverage check uses: the one kept for the
      id, or else the one computed over the loaded kernels. */
  function KnownCoverage(ranges: map<int, (real, real)>, id: int, kers: seq<string>, sp: Spice): Result<(real, real)>
  {
    if id in ranges then Ok(ranges[id]) else StartAndEnd(kers, sp, id)
  }

  // ---------------------------------------------------------------------
  // The reader

  class SpiceOrbitKernelReader {
    /** The names of the kernels loaded into CSPICE. */
    var loadedKernels: set<string>
    /** The coverage (start, end) per NAIF id, kept once computed. */
    var objectCoverageRanges: map<int, (real, real)>
    /** The gap messages: epochs per bucket. */
    var spiceErrorMSG: map<string, string>
    var gapsFound: int

    ghost predicate Valid()
      reads this
    {
      forall k :: k in spiceErrorMSG ==> IsEpochList(spiceErrorMSG[k])
    }

    constructor()
      ensures Valid()
      ensures loadedKernels == {} && objectCoverageRanges == map[] && spiceErrorMSG == map[] && gapsFound == 0
    {
      loadedKernels := {};
      objectCoverageRanges := map[];
      spiceErrorMSG := map[];
      gapsFound := 0;
    }

    /** Loads every kernel of the list that is not loaded yet. */
    method LoadMissing(kernels: seq<string>)
      modifies this
      ensures loadedKernels == old(loadedKernels) + set k | k in kernels
      ensures objectCoverageRanges == old(objectCoverageRanges) && spiceErrorMSG == old(spiceErrorMSG)
      ensures gapsFound == old(gapsFound)
    {
      var ii := 0;
      while ii < |kernels|
        invariant 0 <= ii <= |kernels|
        invariant loadedKernels == old(loadedKernels) + set k | k in kernels[..ii]
        invariant objectCoverageRanges == old(objectCoverageRanges) && spiceErrorMSG == old(spiceErrorMSG)
        invariant gapsFound == old(gapsFound)
      {
        if kernels[ii] !in loadedKernels {
          loadedKernels := loadedKernels + {kernels[ii]};
        }
        assert kernels[..ii + 1] == kernels[..ii] + [kernels[ii]];
        ii := ii + 1;
      }
      assert kernels[..ii] == kernels;
    }

    /** GetCoverageStartAndEnd: loads the missing kernels, then scans them
        for the body's windows. */
    method GetCoverageStartAndEnd(kernels: seq<string>, id: int, sp: Spice) returns (r: Result<(real, real)>)
      modifies this
      ensures r == StartAndEnd(kernels, sp, id)
      ensures loadedKernels == old(loadedKernels) + set k | k in kernels
      ensures objectCoverageRanges == old(objectCoverageRanges) && spiceErrorMSG == old(spiceErrorMSG)
      ensures gapsFound == old(gapsFound)
    {
      LoadMissing(kernels);
      r := ScanStartAndEnd(kernels, id, sp);
    }

    /** GetCoverageSpans: loads the missing kernels, then lists one span per
        window of the body. */
    method GetCoverageSpans(kernels: seq<string>, id: int, sp: Spice) returns (r: Result<(seq<real>, seq<real>)>)
      modifies this
      ensures r == Spans(kernels, sp, id)
      ensures loadedKernels == old(loadedKernels) + set k | k in kernels
      ensures objectCoverageRanges == old(objectCoverageRanges) && spiceErrorMSG == old(spiceErrorMSG)
      ensures gapsFound == old(gapsFound)
    {
      LoadMissing(kernels);
      r := ScanSpans(kernels, id, sp);
    }

    /** StoreErrorMessage: a gap message goes into its bucket, with its
        epoch appended; any other CSPICE message is an error. */
    method StoreErrorMessage(targetName: string, err: string) returns (o: Outcome)
      requires Valid()
      modifies this
      ensures Valid()
      ensures o.Pass? <==> IsGapMessage(err)
      ensures o.Fail? ==> o.msg == StateErrorMessage(targetName, err) && spiceErrorMSG == old(spiceErrorMSG)
      ensures o.Pass? ==> spiceErrorMSG == old(spiceErrorMSG)[GapKey(err) := Lookup(old(spiceErrorMSG), GapKey(err)) + GapEpoch(err)]
      ensures loadedKernels == old(loadedKernels) && objectCoverageRanges == old(objectCoverageRanges)
      ensures gapsFound == old(gapsFound)
    {
      if IsGapMessage(err) {
        var msg := GapKey(err);
        var epoch := GapEpoch(err);
        var before := Lookup(spiceErrorMSG, msg);
        assert before == "" || IsEpochList(before);
        spiceErrorMSG := spiceErrorMSG[msg := before + epoch];
        return Pass;
      }
      return Fail(StateErrorMessage(targetName, err));
    }

    /** StoreCoverageRange: the coverage over the loaded kernels (listed in
        the map's key order) is kept for the id, or the scan's exception. */
    method StoreCoverageRange(id: int, kers: seq<string>, sp: Spice) returns (o: Outcome)
      requires forall k :: k in kers <==> k in loadedKernels
      modifies this
      ensures StartAndEnd(kers, sp, id).Ok? <==> o.Pass?
      ensures o.Pass? ==> objectCoverageRanges == old(objectCoverageRanges)[id := StartAndEnd(kers, sp, id).value]
      ensures o.Fail? ==> o.msg == StartAndEnd(kers, sp, id).msg && objectCoverageRanges == old(objectCoverageRanges)
      ensures loadedKernels == old(loadedKernels) && spiceErrorMSG == old(spiceErrorMSG)
      ensures gapsFound == old(gapsFound)
    {
      var r := GetCoverageStartAndEnd(kers, id, sp);
      assert loadedKernels == old(loadedKernels);
      if r.Err? {
        return Fail(r.msg);
      }
      objectCoverageRanges := objectCoverageRanges[id := r.value];
      return Pass;
    }

    /** CheckIfInCoverageRange: whether the epoch lies in the body's
        coverage, both ends included; the coverage is computed and kept the
        first time the id is asked for, and a body without coverage makes
        the computation throw. */
    method CheckIfInCoverageRange(id: int, atTime: real, kers: seq<string>, sp: Spice) returns (r: Result<bool>)
      requires forall k :: k in kers <==> k in loadedKernels
      modifies this
      ensures id in old(objectCoverageRanges) ==>
        objectCoverageRanges == old(objectCoverageRanges) &&
        r == Ok(old(objectCoverageRanges)[id].0 <= atTime <= old(objectCoverageRanges)[id].1)
      ensures id !in old(objectCoverageRanges) ==>
        var c := StartAndEnd(kers, sp, id);
        (c.Err? ==> r == Err(c.msg) && objectCoverageRanges == old(objectCoverageRanges)) &&
        (c.Ok? ==> r == Ok(c.value.0 <= atTime <= c.value.1) && objectCoverageRanges == old(objectCoverageRanges)[id := c.value])
      ensures loadedKernels == old(loadedKernels) && spiceErrorMSG == old(spiceErrorMSG)
      ensures gapsFound == old(gapsFound)
    {
      if id !in objectCoverageRanges {
        var o := StoreCoverageRange(id, kers, sp);
        if o.Fail? {
          return Err(o.msg);
        }
      }
      var (start, end) := objectCoverageRanges[id];
      return Ok(atTime >= start && atTime <= end);
    }

    /** PrintWarningMessage: counts one gap per bucket, in key order, shows
        the warnings while fewer than 5 gaps are counted and one notice at
        the fifth, and empties the buckets. */
    method PrintWarningMessage(targetName: string, keys: seq<string>) returns (lines: seq<Shown>)
      requires Valid() && InKeyOrder(keys, spiceErrorMSG)
      modifies this
      ensures Valid()
      ensures lines == WarningLines(keys, old(spiceErrorMSG), old(gapsFound), 0)
      ensures gapsFound == old(gapsFound) + |keys|
      ensures spiceErrorMSG == map[]
      ensures loadedKernels == old(loadedKernels) && objectCoverageRanges == old(objectCoverageRanges)
    {
      lines := [];
      var ii := 0;
      while ii < |keys|
        invariant 0 <= ii <= |keys|
        invariant spiceErrorMSG == old(spiceErrorMSG) && gapsFound == old(gapsFound) + ii
        invariant loadedKernels == old(loadedKernels) && objectCoverageRanges == old(objectCoverageRanges)
        invariant lines + WarningLines(keys, old(spiceErrorMSG), gapsFound, ii)
          == WarningLines(keys, old(spiceErrorMSG), old(gapsFound), 0)
      {
        var key := keys[ii];
        var epochs := spiceErrorMSG[key];
        gapsFound := gapsFound + 1;
        if gapsFound < 5 {
          lines := lines + [GapShown(key, epochs)];
        } else if gapsFound == 5 {
          lines := lines + [NoticeShown];
        }
        ii := ii + 1;
      }
      spiceErrorMSG := map[];
    }

    /** PrintErrorMessage after StoreErrorMessage has reset CSPICE's error
        state: counts one more gap and throws the message of the first
        bucket in key order, if any. */
    method PrintErrorMessage(targetName: string) returns (o: Outcome)
      requires Valid()
      modifies this
      ensures spiceErrorMSG == old(spiceErrorMSG) && loadedKernels == old(loadedKernels)
      ensures objectCoverageRanges == old(objectCoverageRanges)
      ensures spiceErrorMSG == map[] <==> o.Pass?
      ensures o.Pass? ==> gapsFound == old(gapsFound)
      ensures o.Fail? ==> gapsFound == old(gapsFound) + 1
      ensures o.Fail? ==> exists k :: FirstIn(spiceErrorMSG.Keys, k) && o.msg == GapError(targetName, k, spiceErrorMSG[k])
    {
      if spiceErrorMSG == map[] {
        return Pass;
      }
      FirstExists(spiceErrorMSG.Keys);
      var k :| FirstIn(spiceErrorMSG.Keys, k);
      gapsFound := gapsFound + 1;
      return Fail(GapError(targetName, k, spiceErrorMSG[k]));
    }

    /** GetTargetState: asks CSPICE for the state. On failure the message is
        stored (or thrown), an epoch outside the body's coverage turns the
        stored gap into an error, and otherwise the failure state is
        returned; after a successful call pending gaps are shown as
        warnings. */
    method GetTargetState(targetName: string, targetId: int, atTime: real, observer: string, observerId: int,
                          frame: string, aberration: string, kers: seq<string>, keys: seq<string>,
                          sp: Spice, answer: StateQuery -> SpiceAnswer)
      returns (r: Result<seq<real>>)
      requires Valid() && forall k :: k in kers <==> k in loadedKernels
      requires InKeyOrder(keys, spiceErrorMSG)
      modifies this
      ensures Valid()
      ensures
        var a := answer(QueryFor(targetName, targetId, atTime, observer, observerId, frame, aberration, sp));
        && (a.Answered? ==> r == Ok(a.state))
        && (a.Answered? && old(spiceErrorMSG) != map[] ==> spiceErrorMSG == map[] && gapsFound == old(gapsFound) + |keys|)
        && (a.Answered? && old(spiceErrorMSG) == map[] ==> spiceErrorMSG == map[] && gapsFound == old(gapsFound))
        && (a.Failed? && !IsGapMessage(a.cspice) ==>
              r == Err(StateErrorMessage(targetName, a.cspice)) && spiceErrorMSG == old(spiceErrorMSG) && gapsFound == old(gapsFound))
        && (a.Failed? && r.Ok? ==> r.value == FailureState && IsGapMessage(a.cspice))
      ensures
        var a := answer(QueryFor(targetName, targetId, atTime, observer, observerId, frame, aberration, sp));
        a.Failed? && IsGapMessage(a.cspice) ==>
          var m := StoredGap(old(spiceErrorMSG), a.cspice);
          var cov := KnownCoverage(old(objectCoverageRanges), targetId, kers, sp);
          && spiceErrorMSG == m
          && (cov.Err? ==> r == Err(cov.msg) && gapsFound == old(gapsFound))
          && (cov.Ok? && cov.value.0 <= atTime <= cov.value.1 ==> r == Ok(FailureState) && gapsFound == old(gapsFound))
          && (cov.Ok? && !(cov.value.0 <= atTime <= cov.value.1) ==>
                && gapsFound == old(gapsFound) + 1
                && r.Err? && exists k :: FirstIn(m.Keys, k) && r.msg == GapError(targetName, k, m[k]))
      ensures loadedKernels == old(loadedKernels)
    {
      var q := QueryFor(targetName, targetId, atTime, observer, observerId, frame, aberration, sp);
      var a := answer(q);
      if a.Failed? {
        var o := StoreErrorMessage(targetName, a.cspice);
        if o.Fail? {
          return Err(o.msg);
        }
        var inRange := CheckIfInCoverageRange(targetId, atTime, kers, sp);
        if inRange.Err? {
          return Err(inRange.msg);
        }
        if !inRange.value {
          var e := PrintErrorMessage(targetName);
          if e.Fail? {
            return Err(e.msg);
          }
        }
        return Ok(FailureState);
      } else if spiceErrorMSG != map[] {
        var _ := PrintWarningMessage(targetName, keys);
      }
      return Ok(a.state);
    }
  }

  /** The scanning loop of GetCoverageStartAndEnd over loaded kernels. */
  method ScanStartAndEnd(kernels: seq<string>, id: int, sp: Spice) returns (r: Result<(real, real)>)
    ensures r == StartAndEnd(kernels, sp, id)
  {
    var firstInt := true;
    var idOnKernel := false;
    var start, end := 0.0, 0.0;
    ghost var acc: seq<Window> := [];
    assert kernels[0..] == kernels;
    var c0 := Collected(kernels, sp, id, false);
    if c0.Ok? {
      assert [] + c0.value == c0.value;
    }
    var ii := 0;
    while ii < |kernels|
      invariant 0 <= ii <= |kernels|
      invariant firstInt <==> acc == []
      invariant !firstInt ==> (start, end) == BoundsOf(acc, sp.toA1)
      invariant Collected(kernels, sp, id, false) == Join(acc, Collected(kernels[ii..], sp, id, idOnKernel))
    {
      var step := KernelStep(kernels[ii], sp.info(kernels[ii]), id, idOnKernel);
      if step.Err? {
        assert kernels[ii..][0] == kernels[ii];
        return Err(step.msg);
      }
      var (ws, latch) := step.value;
      CollectedStep(kernels, sp, id, idOnKernel, ii, acc);
      start, end := FoldWindows(ws, sp.toA1, acc, firstInt, start, end);
      acc := acc + ws;
      if |ws| > 0 {
        firstInt := false;
      }
      idOnKernel := latch;
      ii := ii + 1;
    }
    assert kernels[ii..] == [];
    assert acc + [] == acc;
    assert Collected(kernels, sp, id, false) == Ok(acc);
    if firstInt {
      return Err(NoDataMessage(id));
    }
    return Ok((start, end));
  }

  /** The scanning loop of GetCoverageSpans over loaded kernels. */
  /** The inner loop of GetCoverageSpans: the start and end of each window
      of one kernel, in A.1, appended to those found so far. */
  method AppendSpans(start: seq<real>, end: seq<real>, ghost acc: seq<Window>, ws: seq<Window>, sp: Spice)
    returns (start2: seq<real>, end2: seq<real>)
    requires |start| == |end| == |acc|
    requires forall i :: 0 <= i < |acc| ==> start[i] == sp.toA1(acc[i].b) && end[i] == sp.toA1(acc[i].e)
    ensures |start2| == |end2| == |acc + ws|
    ensures forall i :: 0 <= i < |acc + ws| ==> start2[i] == sp.toA1((acc + ws)[i].b) && end2[i] == sp.toA1((acc + ws)[i].e)
  {
    start2, end2 := start, end;
    var jj := 0;
    while jj < |ws|
      invariant 0 <= jj <= |ws|
      invariant |start2| == |end2| == |acc| + jj
      invariant forall i :: 0 <= i < |acc| + jj ==> start2[i] == sp.toA1((acc + ws)[i].b) && end2[i] == sp.toA1((acc + ws)[i].e)
    {
      start2 := start2 + [sp.toA1(ws[jj].b)];
      end2 := end2 + [sp.toA1(ws[jj].e)];
      jj := jj + 1;
    }
  }

  method ScanSpans(kernels: seq<string>, id: int, sp: Spice) returns (r: Result<(seq<real>, seq<real>)>)
    ensures r == Spans(kernels, sp, id)
  {
    var start: seq<real> := [];
    var end: seq<real> := [];
    var idOnKernel := false;
    ghost var acc: seq<Window> := [];
    assert kernels[0..] == kernels;
    var c0 := Collected(kernels, sp, id, false);
    if c0.Ok? {
      assert [] + c0.value == c0.value;
    }
    var ii := 0;
    while ii < |kernels|
      invariant 0 <= ii <= |kernels|
      invariant |start| == |end| == |acc|
      invariant forall i :: 0 <= i < |acc| ==> start[i] == sp.toA1(acc[i].b) && end[i] == sp.toA1(acc[i].e)
      invariant Collected(kernels, sp, id, false) == Join(acc, Collected(kernels[ii..], sp, id, idOnKernel))
    {
      var step := KernelStep(kernels[ii], sp.info(kernels[ii]), id, idOnKernel);
      if step.Err? {
        assert kernels[ii..][0] == kernels[ii];
        return Err(step.msg);
      }
      var (ws, latch) := step.value;
      CollectedStep(kernels, sp, id, idOnKernel, ii, acc);
      start, end := AppendSpans(start, end, acc, ws, sp);
      acc := acc + ws;
      idOnKernel := latch;
      ii := ii + 1;
    }
    assert kernels[ii..] == [];
    assert acc + [] == acc;
    assert Collected(kernels, sp, id, false) == Ok(acc);
    if |start| == 0 {
      return Err(NoDataMessage(id));
    }
    assert start == seq(|acc|, i requires 0 <= i < |acc| => sp.toA1(acc[i].b));
    assert end == seq(|acc|, i requires 0 <= i < |acc| => sp.toA1(acc[i].e));
    return Ok((start, end));
  }
}
