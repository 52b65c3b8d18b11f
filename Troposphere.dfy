/** The troposphere media correction of the estimation plugin
    (plugins/EstimationPlugin/src/base/measurement/Troposphere/Troposphere.cpp):
    the dispatch of Correction over its three models; for the TRK-2-23
    model the date parsing, the station-to-complex mapping, the selection
    of seasonal and delta lines from the DSN media database, the CONST,
    TRIG and NRMPOW time models of TRK223Solver and the Niell mapping
    coefficients; for the Marini model the refractivity lookup TROGET.

    The physics formulas (the Hopfield-Saastamoinen integrals, Marini's
    closed form, the fractional expansion of the mapping functions and
    Lanyi's elevation correction), the reading of the Marini data file and
    the string and date conversions are parameters. */
module TroposphereModel {
  import opened Common

  // ---------------------------------------------------------------------
  // Conversions

  /** The conversions the class calls into: GmatStringUtil::ToInteger,
      ToReal and ToRealArray (None is a failed conversion, which leaves the
      target variable as it was), ModifiedJulianDate, the Gregorian
      rendering of an epoch used in messages, and cosine and sine. */
  datatype Conversions = Conversions(
    intOf: string -> Option<int>,
    realOf: string -> Option<real>,
    realsOf: string -> seq<real>,
    mjd: (int, int, int, int, int, real) -> real,
    gregorian: real -> string,
    cos: real -> real,
    sin: real -> real)

  /** The value ToInteger leaves in a variable that held preset. */
  function IntOr(text: string, preset: int, intOf: string -> Option<int>): int
  {
    match intOf(text)
    case Some(v) => v
    case None => preset
  }

  /** The value ToReal leaves in a variable that held preset. */
  function RealOr(text: string, preset: real, realOf: string -> Option<real>): real
  {
    match realOf(text)
    case Some(v) => v
    case None => preset
  }

  /** The out_of_range error of std::string::substr for a start past the end. */
  const SubstrError := "basic_string::substr"

  /** A read past the end of a vector, which GMAT leaves undefined. */
  const IndexError := "vector index out of range"

  /** GmatPhysicalConstants::SPEED_OF_LIGHT_VACUUM, in m/s. */
  const SpeedOfLight := 299792458.0

  /** GmatMathConstants::TWO_PI as a double. */
  const TwoPi := 6.283185307179586

  // ---------------------------------------------------------------------
  // TRK-2-23 times (GetTRK223Time)

  datatype TrkTime = TrkTime(year: int, month: int, day: int, hour: int, minute: int, second: real)

  /** The century rule of the two-digit years: 69 to 99 are in the 1900s,
      smaller ones in the 2000s; GMAT also adds 1900 to 100..999 and
      keeps years from 1000 on. */
  function FullYear(y: int): (r: int)
    ensures 0 <= y < 100 ==> 1969 <= r <= 2068 && r % 100 == y
    ensures 1000 <= y ==> r == y
  {
    if 69 <= y < 1000 then y + 1900
    else if y < 69 then y + 2000
    else y
  }

  /** The fields of a TRK-2-23 time "YY/MM/DD,HH:MM[:SS.sss]": year, month,
      day, hour and minute are the two characters at columns 0, 3, 6, 9 and
      12, the seconds everything from column 15 on and read only when the
      line is longer than 14 characters; a field that does not convert
      reads 0. A line shorter than 12 characters makes substr throw. */
  function ParseTrkTime(line: string, conv: Conversions): (r: Result<TrkTime>)
    ensures r.Ok? <==> |line| >= 12
    ensures r.Ok? && |line| <= 14 ==> r.value.second == 0.0
    ensures r.Ok? && conv.intOf(line[..2]).None? ==> r.value.year == 2000
    ensures r.Ok? && conv.intOf(line[..2]).Some? && 0 <= conv.intOf(line[..2]).value < 100 ==>
              1969 <= r.value.year <= 2068 && r.value.year % 100 == conv.intOf(line[..2]).value
  {
    if |line| < 12 then Err(SubstrError)
    else
      var minuteEnd := if |line| < 14 then |line| else 14;
      Ok(TrkTime(
        FullYear(IntOr(line[..2], 0, conv.intOf)),
        IntOr(line[3..5], 0, conv.intOf),
        IntOr(line[6..8], 0, conv.intOf),
        IntOr(line[9..11], 0, conv.intOf),
        IntOr(line[12..minuteEnd], 0, conv.intOf),
        if |line| > 14 then RealOr(line[15..], 0.0, conv.realOf) else 0.0))
  }

  /** GetTRK223Time: the modified Julian date of the parsed fields. */
  function GetTrk223Time(line: string, conv: Conversions): (r: Result<real>)
    ensures r.Ok? <==> |line| >= 12
    ensures r.Err? ==> r.msg == SubstrError
  {
    match ParseTrkTime(line, conv)
    case Err(m) => Err(m)
    case Ok(t) => Ok(conv.mjd(t.year, t.month, t.day, t.hour, t.minute, t.second))
  }

  /** Columns 2, 5, 8, 11 and 14 separate the fields of a time. */
  predicate SeparatorColumn(i: int)
  {
    i == 2 || i == 5 || i == 8 || i == 11 || i == 14
  }

  /** The separators are never checked: two lines that differ only in them
      give the same time, or the same error. */
  lemma TimeIgnoresSeparators(a: string, b: string, conv: Conversions)
    requires |a| == |b|
    requires forall i :: 0 <= i < |a| && !SeparatorColumn(i) ==> a[i] == b[i]
    ensures GetTrk223Time(a, conv) == GetTrk223Time(b, conv)
  {
    if |a| >= 12 {
      assert a[..2] == b[..2];
      assert a[3..5] == b[3..5];
      assert a[6..8] == b[6..8];
      assert a[9..11] == b[9..11];
      var minuteEnd := if |a| < 14 then |a| else 14;
      assert a[12..minuteEnd] == b[12..minuteEnd];
      if |a| > 14 {
        assert a[15..] == b[15..];
      }
    }
  }

  // ---------------------------------------------------------------------
  // LinearInterpolator

  /** The point at scale between first (scale 0) and second (scale 1). */
  function LinearInterpolator(first: real, second: real, scale: real): (r: real)
    ensures scale == 0.0 ==> r == first
    ensures scale == 1.0 ==> r == second
    ensures 0.0 <= scale <= 1.0 ==> Min(first, second) <= r <= Max(first, second)
  {
    var d := second - first;
    ScaledWithin(d, scale);
    first + scale * d
  }

  /** A fraction of d lies between 0 and d. */
  lemma ScaledWithin(d: real, s: real)
    ensures 0.0 <= s <= 1.0 && 0.0 <= d ==> 0.0 <= s * d <= d
    ensures 0.0 <= s <= 1.0 && d < 0.0 ==> d <= s * d <= 0.0
    ensures s == 0.0 ==> s * d == 0.0
    ensures s == 1.0 ==> s * d == d
  {
    if 0.0 <= s <= 1.0 {
      assert (1.0 - s) * d == d - s * d;
      if 0.0 <= d {
        assert 0.0 <= (1.0 - s) * d;
      } else {
        assert (1.0 - s) * d <= 0.0;
      }
    }
  }

  /** The scale (x - first) / (second - first) interpolates back to x. */
  lemma InterpolatorInverse(first: real, second: real, x: real)
    requires first != second
    ensures LinearInterpolator(first, second, (x - first) / (second - first)) == x
  {
    var d := second - first;
    assert (x - first) / d * d == x - first;
  }

  // ---------------------------------------------------------------------
  // Marini refractivity table (TROGET)

  /** One line of the Marini data file: a site and its twelve monthly
      refractivity codes. */
  datatype MariniRow = MariniRow(latitude: real, longitude: real, refractivity: seq<int>)

  /** The code TROGET uses when no site is near the station. */
  const DefaultRefractivity := 37068

  /** A site within one degree of latitude and one degree of longitude
      (across the 0/360 seam too) of the station. */
  predicate NearStation(row: MariniRow, latDeg: real, lonDeg: real)
  {
    Abs(latDeg - row.latitude) < 1.0 &&
    (Abs(lonDeg - row.longitude) < 1.0 || 360.0 - Abs(lonDeg - row.longitude) < 1.0)
  }

  /** The first site from index k on that is near the station, or |rows|. */
  function FirstNearFrom(rows: seq<MariniRow>, k: nat, latDeg: real, lonDeg: real): (i: nat)
    requires k <= |rows|
    ensures k <= i <= |rows|
    ensures i < |rows| ==> NearStation(rows[i], latDeg, lonDeg)
    ensures forall j :: k <= j < i ==> !NearStation(rows[j], latDeg, lonDeg)
    decreases |rows| - k
  {
    if k == |rows| then k
    else if NearStation(rows[k], latDeg, lonDeg) then k
    else FirstNearFrom(rows, k + 1, latDeg, lonDeg)
  }

  /** C++ integer division and remainder, truncating toward zero. */
  function TruncDiv(a: int, b: int): int
    requires b > 0
  {
    if a >= 0 then a / b else -((-a) / b)
  }

  function TruncRem(a: int, b: int): int
    requires b > 0
  {
    a - TruncDiv(a, b) * b
  }

  /** The refractivity code NNNHH split into NS = NNN and the scale
      height HT = HH / 10; the split loses nothing. */
  function DecodeRefractivity(code: int): (r: (int, real))
    ensures (r.0 as real) * 100.0 + r.1 * 10.0 == code as real
    ensures 0 <= code ==> 0 <= r.0 && 0.0 <= r.1 < 10.0
  {
    (TruncDiv(code, 100), (TruncRem(code, 100) as real) * 0.1)
  }

  /** What TROGET yields: the decoded code of the first near site for month
      mon (counted from 0), or the default code; reading a month the site
      does not hold is an error. */
  function TrogetSpec(rows: seq<MariniRow>, latDeg: real, lonDeg: real, mon: int): (r: Result<(int, real)>)
    ensures FirstNearFrom(rows, 0, latDeg, lonDeg) == |rows| ==> r == Ok((370, 6.8))
    ensures r.Err? <==> var i := FirstNearFrom(rows, 0, latDeg, lonDeg);
              i < |rows| && !(0 <= mon < |rows[i].refractivity|)
  {
    var i := FirstNearFrom(rows, 0, latDeg, lonDeg);
    if i == |rows| then Ok(DecodeRefractivity(DefaultRefractivity))
    else if 0 <= mon < |rows[i].refractivity| then Ok(DecodeRefractivity(rows[i].refractivity[mon]))
    else Err(IndexError)
  }

  // ---------------------------------------------------------------------
  // Station-to-complex mapping (CalculateTRK223)

  const Goldstone := "DSN(C10)"
  const Canberra := "DSN(C40)"
  const Madrid := "DSN(C60)"

  /** The DSN complex of a station number: below 30 Goldstone, 30 to 49
      Canberra, 50 and above Madrid. */
  function ComplexOf(n: int): (r: string)
    ensures r == Goldstone <==> n < 30
    ensures r == Canberra <==> 30 <= n < 50
    ensures r == Madrid <==> 50 <= n
  {
    if n < 30 then Goldstone
    else if n < 50 then Canberra
    else Madrid
  }

  /** The abbreviations GMAT accepts for the three complexes. */
  predicate IsAbbreviation(id: string)
  {
    id == "GDS" || id == "CAN" || id == "MAD"
  }

  function AbbreviatedComplex(id: string): string
    requires IsAbbreviation(id)
  {
    if id == "GDS" then Goldstone else if id == "CAN" then Canberra else Madrid
  }

  /** The station id and complex CalculateTRK223 derives from a ground
      station id, as written: an abbreviation is first replaced by its
      complex name; the station number is the id after a leading 'C', or
      the whole id, and stays unset (unsetNumber) when it does not
      convert; the id is wrapped as "DSN(0id)" when shorter than three
      characters and as "DSN(id)" otherwise; the complex follows the
      station number. */
  function StationMappingAsWritten(id: string, intOf: string -> Option<int>, unsetNumber: int): (r: (string, string))
    ensures !IsAbbreviation(id) && |id| >= 1 && id[0] == 'C' && intOf(id[1..]).Some? ==>
              r.1 == ComplexOf(intOf(id[1..]).value)
    ensures !IsAbbreviation(id) && !(|id| >= 1 && id[0] == 'C') && intOf(id).Some? ==>
              r.1 == ComplexOf(intOf(id).value)
    ensures !IsAbbreviation(id) && |id| < 3 ==> r.0 == "DSN(0" + id + ")"
    ensures !IsAbbreviation(id) && |id| >= 3 ==> r.0 == "DSN(" + id + ")"
  {
    var renamed := if IsAbbreviation(id) then AbbreviatedComplex(id) else id;
    var number := if |renamed| >= 1 && renamed[0] == 'C' then IntOr(renamed[1..], unsetNumber, intOf)
                  else IntOr(renamed, unsetNumber, intOf);
    var station := if |renamed| < 3 then "DSN(0" + renamed + ")" else "DSN(" + renamed + ")";
    (station, ComplexOf(number))
  }

  /** A conversion that never finds a number. */
  function NoNumber(text: string): Option<int>
  {
    None
  }

  /** "CAN" becomes the station "DSN(DSN(C40))", and since "DSN(C40)" is no
      number the complex follows whatever the unset station number held:
      with 5 it is Goldstone. */
  lemma AbbreviationAsWrittenLosesComplex()
    ensures StationMappingAsWritten("CAN", NoNumber, 5) == ("DSN(DSN(C40))", Goldstone)
  {
    var renamed := AbbreviatedComplex("CAN");
    assert renamed == Canberra;
    assert renamed[0] == 'D' && |renamed| >= 3;
    assert IntOr(renamed, 5, NoNumber) == 5;
    assert "DSN(" + renamed + ")" == "DSN(DSN(C40))";
  }

  /** The mapping as evidently intended: an abbreviation names its complex,
      which is also the station id; every other id is mapped as written. */
  function StationMapping(id: string, intOf: string -> Option<int>, unsetNumber: int): (r: (string, string))
    ensures IsAbbreviation(id) ==> r.1 == AbbreviatedComplex(id) && r.0 == r.1
    ensures !IsAbbreviation(id) ==> r == StationMappingAsWritten(id, intOf, unsetNumber)
  {
    if IsAbbreviation(id) then (AbbreviatedComplex(id), AbbreviatedComplex(id))
    else StationMappingAsWritten(id, intOf, unsetNumber)
  }

  // ---------------------------------------------------------------------
  // Seasonal and delta lines of the DSN media database

  /** The start time of the seasonal (long-term) entries. */
  const SeasonalStart := "72/01/01,00:00"

  /** Where a database row goes: slot k of the seasonal lines or of the
      delta lines (0 dry and 1 wet of the complex, 2 dry and 3 wet of the
      station), or nowhere. */
  datatype Target = SeasonalLine(k: nat) | DeltaLine(k: nat) | Unused

  /** What the line search compares rows against. */
  datatype Query = Query(complex: string, station: string, epoch: real, conv: Conversions)

  /** The slot a dry (0) or wet (1) row of a complex (base 0) or station
      (base 2) goes to: a seasonal entry by its start time, a delta entry
      when its span holds the epoch; the span's end is read only when its
      start is not after the epoch. */
  function Place(row: seq<string>, base: nat, q: Query): (r: Result<Target>)
    requires |row| >= 8
    ensures r.Ok? && r.value.SeasonalLine? ==> row[4] == SeasonalStart && r.value.k == base + (if row[3] == "DRY NUPART" then 0 else 1)
    ensures r.Ok? && r.value.DeltaLine? ==>
              row[4] != SeasonalStart && GetTrk223Time(row[4], q.conv).Ok? && GetTrk223Time(row[5], q.conv).Ok? &&
              GetTrk223Time(row[4], q.conv).value <= q.epoch <= GetTrk223Time(row[5], q.conv).value &&
              r.value.k == base + (if row[3] == "DRY NUPART" then 0 else 1)
    ensures r.Ok? && !r.value.Unused? ==> row[3] == "DRY NUPART" || row[3] == "WET NUPART"
  {
    var kind := if row[3] == "DRY NUPART" then Some(0) else if row[3] == "WET NUPART" then Some(1) else None;
    if row[4] == SeasonalStart then
      if kind.Some? then Ok(SeasonalLine(base + kind.value)) else Ok(Unused)
    else match GetTrk223Time(row[4], q.conv)
      case Err(m) => Err(m)
      case Ok(start) =>
        if !(start <= q.epoch) then Ok(Unused)
        else match GetTrk223Time(row[5], q.conv)
          case Err(m) => Err(m)
          case Ok(end) => if end >= q.epoch && kind.Some? then Ok(DeltaLine(base + kind.value)) else Ok(Unused)
  }

  /** The slot of one row: only rows for all spacecraft ("ALL") with no
      restriction ("NONE") are used, first for the complex and otherwise
      for the station. */
  function RowTarget(row: seq<string>, q: Query): (r: Result<Target>)
    ensures r.Ok? && r.value.SeasonalLine? ==> r.value.k < 4
    ensures r.Ok? && r.value.DeltaLine? ==> r.value.k < 4
    ensures r.Ok? && !r.value.Unused? ==> |row| >= 8 && row[7] == "NONE" && row[0] == "ALL"
    ensures r.Ok? && !r.value.Unused? && r.value.k < 2 ==> row[6] == q.complex
    ensures r.Ok? && !r.value.Unused? && r.value.k >= 2 ==> row[6] == q.station && row[6] != q.complex
  {
    if |row| < 8 then Err(IndexError)
    else if row[7] != "NONE" || row[0] != "ALL" then Ok(Unused)
    else if row[6] == q.complex then Place(row, 0, q)
    else if row[6] == q.station then Place(row, 2, q)
    else Ok(Unused)
  }

  /** The seasonal and delta line indices, -1 where none was found. */
  datatype Lines = Lines(seasonal: seq<int>, delta: seq<int>)

  const NoLines := Lines([-1, -1, -1, -1], [-1, -1, -1, -1])

  predicate WellShaped(l: Lines)
  {
    |l.seasonal| == 4 && |l.delta| == 4
  }

  /** Row i recorded in its slot. */
  function Record(l: Lines, t: Target, i: nat): (r: Lines)
    requires WellShaped(l)
    requires !t.Unused? ==> t.k < 4
    ensures WellShaped(r)
  {
    match t
    case SeasonalLine(k) => l.(seasonal := l.seasonal[k := i])
    case DeltaLine(k) => l.(delta := l.delta[k := i])
    case Unused => l
  }

  /** The lines found in the first n rows; a row whose check fails stops
      the search with its error. */
  function LinesUpTo(rows: seq<seq<string>>, n: nat, q: Query): (r: Result<Lines>)
    requires n <= |rows|
    ensures r.Ok? ==> WellShaped(r.value)
  {
    if n == 0 then Ok(NoLines)
    else match LinesUpTo(rows, n - 1, q)
      case Err(m) => Err(m)
      case Ok(l) =>
        match RowTarget(rows[n - 1], q)
        case Err(m) => Err(m)
        case Ok(t) => Ok(Record(l, t, n - 1))
  }

  /** The check of every row: the slot it goes to, or its error. */
  function Targets(rows: seq<seq<string>>, q: Query): (ts: seq<Result<Target>>)
    ensures |ts| == |rows| && forall j :: 0 <= j < |rows| ==> ts[j] == RowTarget(rows[j], q)
  {
    seq(|rows|, j requires 0 <= j < |rows| => RowTarget(rows[j], q))
  }

  /** idx is the last of the first n checked rows that goes to slot t, or
      -1 when none does. */
  predicate LastFor(ts: seq<Result<Target>>, n: nat, t: Target, idx: int)
    requires n <= |ts|
  {
    if idx == -1 then forall j :: 0 <= j < n ==> ts[j] != Ok(t)
    else 0 <= idx < n && ts[idx] == Ok(t) && forall j :: idx < j < n ==> ts[j] != Ok(t)
  }

  /** The search keeps the last matching row of every slot. */
  predicate LinesMeaning(ts: seq<Result<Target>>, n: nat, l: Lines)
    requires n <= |ts|
  {
    WellShaped(l) &&
    (forall k :: 0 <= k < 4 ==> LastFor(ts, n, SeasonalLine(k), l.seasonal[k])) &&
    (forall k :: 0 <= k < 4 ==> LastFor(ts, n, DeltaLine(k), l.delta[k]))
  }

  /** One more row keeps the last row of one slot. */
  lemma LastForSlotStep(ts: seq<Result<Target>>, n: nat, slot: Target, idx: int, t: Target)
    requires n < |ts| && LastFor(ts, n, slot, idx)
    requires ts[n] == Ok(t)
    ensures LastFor(ts, n + 1, slot, if t == slot then n else idx)
  {
    if t != slot && idx != -1 {
      assert forall j :: idx < j < n + 1 ==> ts[j] != Ok(slot);
    }
  }

  /** One more row keeps the meaning. */
  lemma LastForStep(ts: seq<Result<Target>>, n: nat, l: Lines, t: Target)
    requires n < |ts| && LinesMeaning(ts, n, l)
    requires ts[n] == Ok(t)
    requires !t.Unused? ==> t.k < 4
    ensures LinesMeaning(ts, n + 1, Record(l, t, n))
  {
    var r := Record(l, t, n);
    forall k | 0 <= k < 4
      ensures LastFor(ts, n + 1, SeasonalLine(k), r.seasonal[k])
    {
      LastForSlotStep(ts, n, SeasonalLine(k), l.seasonal[k], t);
      assert r.seasonal[k] == if t == SeasonalLine(k) then n else l.seasonal[k];
    }
    forall k | 0 <= k < 4
      ensures LastFor(ts, n + 1, DeltaLine(k), r.delta[k])
    {
      LastForSlotStep(ts, n, DeltaLine(k), l.delta[k], t);
      assert r.delta[k] == if t == DeltaLine(k) then n else l.delta[k];
    }
  }

  /** Every line the search records is the last row of its slot, and a
      slot left at -1 has no row. */
  lemma {:induction false} LinesAreLastMatches(rows: seq<seq<string>>, n: nat, q: Query)
    requires n <= |rows|
    ensures LinesUpTo(rows, n, q).Ok? ==> LinesMeaning(Targets(rows, q), n, LinesUpTo(rows, n, q).value)
  {
    if n > 0 {
      LinesAreLastMatches(rows, n - 1, q);
      var prev := LinesUpTo(rows, n - 1, q);
      var t := RowTarget(rows[n - 1], q);
      if prev.Ok? && t.Ok? {
        LastForStep(Targets(rows, q), n - 1, prev.value, t.value);
      }
    }
  }

  /** The search fails exactly when some row's check fails. */
  lemma {:induction false} LinesFailOnlyOnError(rows: seq<seq<string>>, n: nat, q: Query)
    requires n <= |rows|
    ensures LinesUpTo(rows, n, q).Err? <==> exists j :: 0 <= j < n && RowTarget(rows[j], q).Err?
  {
    if n > 0 {
      LinesFailOnlyOnError(rows, n - 1, q);
    }
  }

  /** An error stays the result of every longer search. */
  lemma {:induction false} LinesErrorStays(rows: seq<seq<string>>, i: nat, n: nat, q: Query)
    requires i <= n <= |rows|
    requires LinesUpTo(rows, i, q).Err?
    ensures LinesUpTo(rows, n, q) == LinesUpTo(rows, i, q)
    decreases n - i
  {
    if i < n {
      LinesErrorStays(rows, i, n - 1, q);
    }
  }

  /** The line search of CalculateTRK223 over the database. */
  method SelectLines(rows: seq<seq<string>>, q: Query) returns (r: Result<Lines>)
    ensures r == LinesUpTo(rows, |rows|, q)
  {
    var lines := NoLines;
    var i := 0;
    while i < |rows|
      invariant 0 <= i <= |rows|
      invariant LinesUpTo(rows, i, q) == Ok(lines)
    {
      var t := RowTarget(rows[i], q);
      if t.Err? {
        LinesErrorStays(rows, i + 1, |rows|, q);
        return Err(t.msg);
      }
      lines := Record(lines, t.value, i);
      i := i + 1;
    }
    return Ok(lines);
  }

  // ---------------------------------------------------------------------
  // TRK223Solver

  /** coefs[0] + coefs[1] tau + coefs[2] tau^2 + ..., summed in index order. */
  function PowerSum(coefs: seq<real>, tau: real): real
  {
    if |coefs| == 0 then 0.0
    else PowerSum(coefs[..|coefs| - 1], tau) + coefs[|coefs| - 1] * Pow(tau, |coefs| - 1)
  }

  /** Horner's evaluation of the same polynomial. */
  function Horner(coefs: seq<real>, tau: real): real
  {
    if |coefs| == 0 then 0.0 else coefs[0] + tau * Horner(coefs[1..], tau)
  }

  /** Splitting the lowest coefficient off a power sum. */
  lemma {:induction false} PowerSumFront(x: real, d: seq<real>, tau: real)
    ensures PowerSum([x] + d, tau) == x + tau * PowerSum(d, tau)
    decreases |d|
  {
    if |d| == 0 {
      assert [x] + d == [x];
      assert [x][..0] == [];
    } else {
      var front := d[..|d| - 1];
      var e := d[|d| - 1];
      PowerSumFront(x, front, tau);
      assert ([x] + d)[..|d|] == [x] + front;
      var sum, power, next := PowerSum(front, tau), Pow(tau, |d| - 1), Pow(tau, |d|);
      assert PowerSum([x] + d, tau) == PowerSum([x] + front, tau) + e * next;
      assert PowerSum(d, tau) == sum + e * power;
      FactorTau(x, tau, sum, e, power, next, PowerSum(d, tau));
    }
  }

  /** The step of PowerSumFront that takes tau out of the new term. */
  lemma FactorTau(x: real, tau: real, sum: real, e: real, power: real, next: real, whole: real)
    requires next == power * tau && whole == sum + e * power
    ensures x + tau * sum + e * next == x + tau * whole
  {
    calc {
      x + tau * sum + e * next;
      x + tau * sum + e * (power * tau);
      x + tau * sum + tau * (e * power);
      x + tau * (sum + e * power);
    }
  }

  /** The power series of NRMPOW is the polynomial Horner's rule evaluates. */
  lemma {:induction false} PowerSumIsHorner(coefs: seq<real>, tau: real)
    ensures PowerSum(coefs, tau) == Horner(coefs, tau)
    decreases |coefs|
  {
    if |coefs| > 0 {
      PowerSumIsHorner(coefs[1..], tau);
      PowerSumFront(coefs[0], coefs[1..], tau);
      assert [coefs[0]] + coefs[1..] == coefs;
    }
  }

  lemma {:induction false} PowOfOne(k: nat)
    ensures Pow(1.0, k) == 1.0
  {
    if k > 0 {
      PowOfOne(k - 1);
    }
  }

  /** At the end of its span (tau = 1) a power series is the sum of its
      coefficients. */
  lemma {:induction false} PowerSumAtSpanEnd(coefs: seq<real>)
    ensures PowerSum(coefs, 1.0) == RSum(coefs)
    decreases |coefs|
  {
    if |coefs| > 0 {
      PowerSumAtSpanEnd(coefs[..|coefs| - 1]);
      PowOfOne(|coefs| - 1);
    }
  }

  /** The power loop of TRK223Solver. */
  method EvaluatePowerSeries(coefs: seq<real>, tau: real) returns (drho: real)
    ensures drho == PowerSum(coefs, tau)
  {
    drho := 0.0;
    var i := 0;
    while i < |coefs|
      invariant 0 <= i <= |coefs|
      invariant drho == PowerSum(coefs[..i], tau)
    {
      assert coefs[..i + 1][..i] == coefs[..i];
      drho := drho + coefs[i] * Pow(tau, i);
      i := i + 1;
    }
    assert coefs[..|coefs|] == coefs;
  }

  /** The NRMPOW time argument: the epoch's place in the span [start, end]
      in seconds, mapped to [-1, 1]. */
  function NormalizedTime(t: real, start: real, end: real): (tau: real)
    requires end != start
    ensures t == start ==> tau == -1.0
    ensures t == end ==> tau == 1.0
    ensures start < end && start <= t <= end ==> -1.0 <= tau <= 1.0
  {
    var ratio := (t * 86400.0 - start * 86400.0) / (end * 86400.0 - start * 86400.0);
    RatioWithin(t - start, end - start, ratio);
    2.0 * ratio - 1.0
  }

  /** The ratio of the seconds is the ratio of the days, and lies in [0, 1]
      for a point of the span. */
  lemma RatioWithin(num: real, den: real, ratio: real)
    requires den != 0.0
    requires ratio == (num * 86400.0) / (den * 86400.0)
    ensures ratio * den == num
    ensures num == 0.0 ==> ratio == 0.0
    ensures num == den ==> ratio == 1.0
    ensures 0.0 < den && 0.0 <= num <= den ==> 0.0 <= ratio <= 1.0
  {
    assert ratio * (den * 86400.0) == num * 86400.0;
    assert ratio * den * 86400.0 == num * 86400.0;
  }

  /** The TRIG series up to harmonic m: coefs[1] plus coefs[2k] cos(k phase)
      + coefs[2k+1] sin(k phase) for k = 1..m. */
  function TrigSum(coefs: seq<real>, phase: real, m: nat, conv: Conversions): real
    requires 2 * m + 1 < |coefs|
  {
    if m == 0 then coefs[1]
    else TrigSum(coefs, phase, m - 1, conv)
         + coefs[2 * m] * conv.cos(phase * (m as real)) + coefs[2 * m + 1] * conv.sin(phase * (m as real))
  }

  /** The cosine coefficients coefs[2], coefs[4], ..., coefs[2m]. */
  function CosineCoefficientSum(coefs: seq<real>, m: nat): real
    requires 2 * m < |coefs|
  {
    if m == 0 then 0.0 else CosineCoefficientSum(coefs, m - 1) + coefs[2 * m]
  }

  /** At the start of its span (phase 0), where cosine is 1 and sine is 0,
      the TRIG series is the mean term plus the cosine coefficients. */
  lemma {:induction false} TrigSumAtSpanStart(coefs: seq<real>, m: nat, conv: Conversions)
    requires 2 * m + 1 < |coefs|
    requires conv.cos(0.0) == 1.0 && conv.sin(0.0) == 0.0
    ensures TrigSum(coefs, 0.0, m, conv) == coefs[1] + CosineCoefficientSum(coefs, m)
  {
    if m > 0 {
      TrigSumAtSpanStart(coefs, m - 1, conv);
      assert 0.0 * (m as real) == 0.0;
    }
  }

  /** The harmonic loop of TRK223Solver; it reads coefficients in pairs. */
  method EvaluateTrigSeries(coefs: seq<real>, phase: real, conv: Conversions) returns (drho: real)
    requires |coefs| >= 2 && |coefs| % 2 == 0
    ensures drho == TrigSum(coefs, phase, |coefs| / 2 - 1, conv)
  {
    drho := coefs[1];
    var count := 1;
    var i := 2;
    while i < |coefs|
      invariant 2 <= i <= |coefs| && i == 2 * count && i % 2 == 0
      invariant drho == TrigSum(coefs, phase, count - 1, conv)
    {
      assert TrigSum(coefs, phase, count, conv) == TrigSum(coefs, phase, count - 1, conv)
        + coefs[i] * conv.cos(phase * (count as real)) + coefs[i + 1] * conv.sin(phase * (count as real));
      drho := drho + coefs[i] * conv.cos(phase * (count as real)) + coefs[i + 1] * conv.sin(phase * (count as real));
      count := count + 1;
      i := i + 2;
    }
  }

  /** Both span times of a database row read. */
  predicate SpanReadable(row: seq<string>, conv: Conversions)
  {
    |row| >= 6 && GetTrk223Time(row[4], conv).Ok? && GetTrk223Time(row[5], conv).Ok?
  }

  function UnknownTimeModel(model: string, when: string): string
  {
    "Error: Do not recognize time model " + model + " at time " + when
  }

  /** TRK223Solver: the range correction in metres a database row gives at
      epoch. The span is parsed first, whatever the model; CONST is the
      first coefficient, TRIG a Fourier series over the period coefs[0]
      starting at the span's start, NRMPOW a power series in the epoch's
      normalized place in the span; any other model is an error. Reading a
      coefficient the row does not hold, and a zero period or empty span,
      are errors here (GMAT reads past the vector or divides by
      zero). */
  function SolverValue(row: seq<string>, epoch: real, conv: Conversions): Result<real>
  {
    if |row| < 6 then Err(IndexError)
    else
      match GetTrk223Time(row[4], conv)
      case Err(m) => Err(m)
      case Ok(start) =>
        match GetTrk223Time(row[5], conv)
        case Err(m) => Err(m)
        case Ok(end) => SpanValue(row[1], conv.realsOf(row[2]), start, end, epoch, conv)
  }

  /** The time model of a line with a readable span applied at the epoch. */
  function SpanValue(model: string, coefs: seq<real>, start: real, end: real, epoch: real, conv: Conversions): Result<real>
  {
    if model == "CONST" then
      if |coefs| == 0 then Err(IndexError) else Ok(coefs[0])
    else if model == "TRIG" then
      if |coefs| < 2 || |coefs| % 2 == 1 then Err(IndexError)
      else if coefs[0] == 0.0 then Err(DivisionByZero)
      else Ok(TrigSum(coefs, TwoPi * (epoch * 86400.0 - start * 86400.0) / coefs[0], |coefs| / 2 - 1, conv))
    else if model == "NRMPOW" then
      if end == start then Err(DivisionByZero)
      else Ok(PowerSum(coefs, NormalizedTime(epoch, start, end)))
    else Err(UnknownTimeModel(model, conv.gregorian(epoch)))
  }

  /** What the solver promises: a value only for a readable span and a
      known model; CONST gives the first coefficient, NRMPOW the polynomial
      in the normalized time; an unknown model is the error naming it. */
  lemma SolverValueMeaning(row: seq<string>, epoch: real, conv: Conversions)
    ensures var r := SolverValue(row, epoch, conv);
      && (r.Ok? ==> SpanReadable(row, conv) && (row[1] == "CONST" || row[1] == "TRIG" || row[1] == "NRMPOW"))
      && (r.Ok? && row[1] == "CONST" ==> |conv.realsOf(row[2])| > 0 && r.value == conv.realsOf(row[2])[0])
      && (r.Ok? && row[1] == "NRMPOW" ==>
            var start := GetTrk223Time(row[4], conv).value;
            var end := GetTrk223Time(row[5], conv).value;
            end != start && r.value == Horner(conv.realsOf(row[2]), NormalizedTime(epoch, start, end)))
      && (SpanReadable(row, conv) && row[1] != "CONST" && row[1] != "TRIG" && row[1] != "NRMPOW" ==>
            r == Err(UnknownTimeModel(row[1], conv.gregorian(epoch))))
  {
    if SpanReadable(row, conv) && row[1] == "NRMPOW" {
      var start := GetTrk223Time(row[4], conv).value;
      var end := GetTrk223Time(row[5], conv).value;
      if end != start {
        PowerSumIsHorner(conv.realsOf(row[2]), NormalizedTime(epoch, start, end));
      }
    }
  }

  /** A division by zero, which GMAT leaves to floating point. */
  const DivisionByZero := "division by zero"

  /** TRK223Solver with its loops. */
  method Trk223Solve(row: seq<string>, epoch: real, conv: Conversions) returns (r: Result<real>)
    ensures r == SolverValue(row, epoch, conv)
  {
    if |row| < 6 {
      return Err(IndexError);
    }
    var coefs := conv.realsOf(row[2]);
    var startTime := GetTrk223Time(row[4], conv);
    if startTime.Err? {
      return Err(startTime.msg);
    }
    var endTime := GetTrk223Time(row[5], conv);
    if endTime.Err? {
      return Err(endTime.msg);
    }
    r := EvaluateSpan(row[1], coefs, startTime.value, endTime.value, epoch, conv);
  }

  /** The time model of one line, with the series loops. */
  method EvaluateSpan(model: string, coefs: seq<real>, start: real, end: real, epoch: real, conv: Conversions)
    returns (r: Result<real>)
    ensures r == SpanValue(model, coefs, start, end, epoch, conv)
  {
    if model == "CONST" {
      if |coefs| == 0 {
        return Err(IndexError);
      }
      return Ok(coefs[0]);
    } else if model == "TRIG" {
      if |coefs| < 2 || |coefs| % 2 == 1 {
        return Err(IndexError);
      }
      if coefs[0] == 0.0 {
        return Err(DivisionByZero);
      }
      var phase := TwoPi * (epoch * 86400.0 - start * 86400.0) / coefs[0];
      var drho := EvaluateTrigSeries(coefs, phase, conv);
      return Ok(drho);
    } else if model == "NRMPOW" {
      if end == start {
        return Err(DivisionByZero);
      }
      var drho := EvaluatePowerSeries(coefs, NormalizedTime(epoch, start, end));
      return Ok(drho);
    }
    return Err(UnknownTimeModel(model, conv.gregorian(epoch)));
  }

  // ---------------------------------------------------------------------
  // Zenith corrections from the selected lines

  function SeasonalMissing(station: string): string
  {
    "Error locating seasonal correction data for the groundstation \"" + station
    + "\". Ensure that the seasonal.csp file, with corrections for this groundstation, is located in one of the Earth.DSNAtmosphericDirectories. \n"
  }

  /** A solver of database rows; the correction code passes SolverValue
      at the measurement epoch. */
  type Solver = seq<string> -> Result<real>

  function SolverAt(epoch: real, conv: Conversions): Solver
  {
    row => SolverValue(row, epoch, conv)
  }

  /** The solver on row idx; -1 (no line) is read past the database. */
  function SolveAt(rows: seq<seq<string>>, idx: int, solve: Solver): Result<real>
  {
    if 0 <= idx < |rows| then solve(rows[idx]) else Err(IndexError)
  }

  /** The solver on row idx when a line was found, else nothing to add. */
  function SolveIfFound(rows: seq<seq<string>>, idx: int, solve: Solver): (r: Result<real>)
    ensures idx == -1 ==> r == Ok(0.0)
  {
    if idx == -1 then Ok(0.0) else SolveAt(rows, idx, solve)
  }

  /** The complex's dry and wet corrections: its seasonal lines plus its
      delta lines when the dry delta line was found. */
  function ComplexCorrections(rows: seq<seq<string>>, l: Lines, solve: Solver): (r: Result<(real, real)>)
    requires WellShaped(l)
    ensures r.Ok? ==> 0 <= l.seasonal[0] < |rows| && 0 <= l.seasonal[1] < |rows|
    ensures r.Ok? && l.delta[0] == -1 ==>
              solve(rows[l.seasonal[0]]).Ok? && solve(rows[l.seasonal[1]]).Ok? &&
              r.value == (solve(rows[l.seasonal[0]]).value, solve(rows[l.seasonal[1]]).value)
  {
    match SolveAt(rows, l.seasonal[0], solve)
    case Err(m) => Err(m)
    case Ok(dry) =>
      match SolveAt(rows, l.seasonal[1], solve)
      case Err(m) => Err(m)
      case Ok(wet) =>
        if l.delta[0] == -1 then Ok((dry, wet))
        else
          match SolveAt(rows, l.delta[0], solve)
          case Err(m) => Err(m)
          case Ok(dryDelta) =>
            match SolveAt(rows, l.delta[1], solve)
            case Err(m) => Err(m)
            case Ok(wetDelta) => Ok((dry + dryDelta, wet + wetDelta))
  }

  /** No line of the station's own was found. */
  predicate NoStationLines(l: Lines)
    requires WellShaped(l)
  {
    l.seasonal[2] == -1 && l.seasonal[3] == -1 && l.delta[2] == -1 && l.delta[3] == -1
  }

  /** The station's own dry and wet corrections: every line found for it. */
  function StationCorrections(rows: seq<seq<string>>, l: Lines, solve: Solver): (r: Result<(real, real)>)
    requires WellShaped(l)
    ensures NoStationLines(l) ==> r == Ok((0.0, 0.0))
  {
    match SolveIfFound(rows, l.seasonal[2], solve)
    case Err(m) => Err(m)
    case Ok(dry) =>
      match SolveIfFound(rows, l.seasonal[3], solve)
      case Err(m) => Err(m)
      case Ok(wet) =>
        match SolveIfFound(rows, l.delta[2], solve)
        case Err(m) => Err(m)
        case Ok(dryDelta) =>
          match SolveIfFound(rows, l.delta[3], solve)
          case Err(m) => Err(m)
          case Ok(wetDelta) => Ok((dry + dryDelta, wet + wetDelta))
  }

  /** The dry and wet zenith corrections: the complex's, which need its
      seasonal lines, plus the station's. */
  function ZenithCorrections(rows: seq<seq<string>>, l: Lines, station: string, solve: Solver): (r: Result<(real, real)>)
    requires WellShaped(l)
    ensures l.seasonal[0] == -1 ==> r == Err(SeasonalMissing(station))
  {
    if l.seasonal[0] == -1 then Err(SeasonalMissing(station))
    else
      match ComplexCorrections(rows, l, solve)
      case Err(m) => Err(m)
      case Ok(complex) =>
        match StationCorrections(rows, l, solve)
        case Err(m) => Err(m)
        case Ok(stationPart) => Ok((complex.0 + stationPart.0, complex.1 + stationPart.1))
  }

  /** solve is the solver at the epoch; the fact is used only where a
      solver value is at hand. */
  ghost predicate SolvesAt(solve: Solver, epoch: real, conv: Conversions)
  {
    forall row {:trigger SolverValue(row, epoch, conv)} :: solve(row) == SolverValue(row, epoch, conv)
  }

  /** The solver on row idx, as a call. */
  method SolveLine(rows: seq<seq<string>>, idx: int, epoch: real, conv: Conversions, ghost solve: Solver)
    returns (r: Result<real>)
    requires SolvesAt(solve, epoch, conv)
    ensures r == SolveAt(rows, idx, solve)
  {
    if 0 <= idx < |rows| {
      r := Trk223Solve(rows[idx], epoch, conv);
    } else {
      r := Err(IndexError);
    }
  }

  /** The solver on row idx when a line was found, as a call. */
  method SolveLineIfFound(rows: seq<seq<string>>, idx: int, epoch: real, conv: Conversions, ghost solve: Solver)
    returns (r: Result<real>)
    requires SolvesAt(solve, epoch, conv)
    ensures r == SolveIfFound(rows, idx, solve)
  {
    if idx == -1 {
      r := Ok(0.0);
    } else {
      r := SolveLine(rows, idx, epoch, conv, solve);
    }
  }

  /** The complex's corrections, line by line. */
  method CombineComplex(rows: seq<seq<string>>, l: Lines, epoch: real, conv: Conversions, ghost solve: Solver)
    returns (r: Result<(real, real)>)
    requires WellShaped(l) && SolvesAt(solve, epoch, conv)
    ensures r == ComplexCorrections(rows, l, solve)
  {
    var dry := SolveLine(rows, l.seasonal[0], epoch, conv, solve);
    if dry.Err? {
      return Err(dry.msg);
    }
    var wet := SolveLine(rows, l.seasonal[1], epoch, conv, solve);
    if wet.Err? {
      return Err(wet.msg);
    }
    if l.delta[0] == -1 {
      return Ok((dry.value, wet.value));
    }
    var dryDelta := SolveLine(rows, l.delta[0], epoch, conv, solve);
    if dryDelta.Err? {
      return Err(dryDelta.msg);
    }
    var wetDelta := SolveLine(rows, l.delta[1], epoch, conv, solve);
    if wetDelta.Err? {
      return Err(wetDelta.msg);
    }
    return Ok((dry.value + dryDelta.value, wet.value + wetDelta.value));
  }

  /** The station's own corrections, line by line. */
  method CombineStation(rows: seq<seq<string>>, l: Lines, epoch: real, conv: Conversions, ghost solve: Solver)
    returns (r: Result<(real, real)>)
    requires WellShaped(l) && SolvesAt(solve, epoch, conv)
    ensures r == StationCorrections(rows, l, solve)
  {
    var dry := SolveLineIfFound(rows, l.seasonal[2], epoch, conv, solve);
    if dry.Err? {
      return Err(dry.msg);
    }
    var wet := SolveLineIfFound(rows, l.seasonal[3], epoch, conv, solve);
    if wet.Err? {
      return Err(wet.msg);
    }
    var dryDelta := SolveLineIfFound(rows, l.delta[2], epoch, conv, solve);
    if dryDelta.Err? {
      return Err(dryDelta.msg);
    }
    var wetDelta := SolveLineIfFound(rows, l.delta[3], epoch, conv, solve);
    if wetDelta.Err? {
      return Err(wetDelta.msg);
    }
    return Ok((dry.value + dryDelta.value, wet.value + wetDelta.value));
  }

  /** The zenith corrections, as calls. */
  method CombineCorrections(rows: seq<seq<string>>, l: Lines, station: string, epoch: real, conv: Conversions,
                            ghost solve: Solver)
    returns (r: Result<(real, real)>)
    requires WellShaped(l) && SolvesAt(solve, epoch, conv)
    ensures r == ZenithCorrections(rows, l, station, solve)
  {
    if l.seasonal[0] == -1 {
      return Err(SeasonalMissing(station));
    }
    var complex := CombineComplex(rows, l, epoch, conv, solve);
    if complex.Err? {
      return Err(complex.msg);
    }
    var stationPart := CombineStation(rows, l, epoch, conv, solve);
    if stationPart.Err? {
      return Err(stationPart.msg);
    }
    return Ok((complex.value.0 + stationPart.value.0, complex.value.1 + stationPart.value.1));
  }

  /** Without lines of the station's own, the zenith corrections are the
      complex's. */
  lemma ZenithWithoutStationLines(rows: seq<seq<string>>, l: Lines, station: string, solve: Solver)
    requires WellShaped(l) && l.seasonal[0] != -1 && NoStationLines(l)
    ensures ZenithCorrections(rows, l, station, solve) == ComplexCorrections(rows, l, solve)
  {
    assert StationCorrections(rows, l, solve) == Ok((0.0, 0.0));
    match ComplexCorrections(rows, l, solve)
    case Err(_) =>
    case Ok(c) =>
      assert (c.0 + 0.0, c.1 + 0.0) == c;
  }

  // ---------------------------------------------------------------------
  // Niell mapping coefficients

  /** The latitudes (degrees) of the Niell tables and the tables' rows. */
  const LatitudeTable: seq<real> := [15.0, 30.0, 45.0, 60.0, 75.0]
  const ADryAvg: seq<real> := [0.0012769934, 0.0012683230, 0.0012465397, 0.0012196049, 0.0012045996]
  const BDryAvg: seq<real> := [0.0029153695, 0.0029152299, 0.0029288445, 0.0029022565, 0.0029024912]
  const CDryAvg: seq<real> := [0.062610505, 0.062837393, 0.063721774, 0.063824265, 0.064258455]
  const ADryAmp: seq<real> := [0.0, 0.000012709626, 0.000026523662, 0.000034000452, 0.000041202191]
  const BDryAmp: seq<real> := [0.0, 0.000021414979, 0.000030160779, 0.000072562722, 0.00011723375]
  const CDryAmp: seq<real> := [0.0, 0.000090128400, 0.000043497037, 0.00084795348, 0.0017037206]
  const AWetAvg: seq<real> := [0.00058021897, 0.00056794847, 0.00058118019, 0.00059727542, 0.00061641693]
  const BWetAvg: seq<real> := [0.0014275268, 0.0015138625, 0.0014572752, 0.0015007428, 0.0017599082]
  const CWetAvg: seq<real> := [0.043472961, 0.046729510, 0.043908931, 0.044626982, 0.054736038]

  /** The height correction coefficients of the dry mapping. */
  const AHeight := 0.0000253
  const BHeight := 0.00549
  const CHeight := 0.00114

  /** The coefficients of the dry and wet mapping functions. */
  datatype Niell = Niell(aDry: real, bDry: real, cDry: real, aWet: real, bWet: real, cWet: real)

  /** One latitude's table entries: the dry averages and seasonal
      amplitudes and the wet averages. */
  datatype NiellRow = NiellRow(
    aDryAvg: real, bDryAvg: real, cDryAvg: real,
    aDryAmp: real, bDryAmp: real, cDryAmp: real,
    aWet: real, bWet: real, cWet: real)

  function TableRow(k: nat): NiellRow
    requires k < 5
  {
    NiellRow(ADryAvg[k], BDryAvg[k], CDryAvg[k], ADryAmp[k], BDryAmp[k], CDryAmp[k], AWetAvg[k], BWetAvg[k], CWetAvg[k])
  }

  /** Every entry a scale of the way from lo to hi. */
  function InterpolateRows(lo: NiellRow, hi: NiellRow, scale: real): (r: NiellRow)
    ensures scale == 0.0 ==> r == lo
    ensures scale == 1.0 ==> r == hi
  {
    NiellRow(
      LinearInterpolator(lo.aDryAvg, hi.aDryAvg, scale), LinearInterpolator(lo.bDryAvg, hi.bDryAvg, scale),
      LinearInterpolator(lo.cDryAvg, hi.cDryAvg, scale), LinearInterpolator(lo.aDryAmp, hi.aDryAmp, scale),
      LinearInterpolator(lo.bDryAmp, hi.bDryAmp, scale), LinearInterpolator(lo.cDryAmp, hi.cDryAmp, scale),
      LinearInterpolator(lo.aWet, hi.aWet, scale), LinearInterpolator(lo.bWet, hi.bWet, scale),
      LinearInterpolator(lo.cWet, hi.cWet, scale))
  }

  /** The coefficients of a row; the dry ones vary with the season
      through cosSeason, the cosine of the day-of-year phase. */
  function Seasonal(row: NiellRow, cosSeason: real): Niell
  {
    Niell(row.aDryAvg + row.aDryAmp * cosSeason, row.bDryAvg + row.bDryAmp * cosSeason,
          row.cDryAvg + row.cDryAmp * cosSeason, row.aWet, row.bWet, row.cWet)
  }

  /** The coefficients of table row k. */
  function TableCoefficients(k: nat, cosSeason: real): (r: Niell)
    requires k < 5
    ensures k < 4 ==> r == InterpolatedCoefficients(k, 0.0, cosSeason)
    ensures 0 < k ==> r == InterpolatedCoefficients(k - 1, 1.0, cosSeason)
  {
    Seasonal(TableRow(k), cosSeason)
  }

  /** The coefficients a scale of the way from row i to row i + 1. */
  function InterpolatedCoefficients(i: nat, scale: real, cosSeason: real): Niell
    requires i < 4
  {
    Seasonal(InterpolateRows(TableRow(i), TableRow(i + 1), scale), cosSeason)
  }

  /** The coefficients below 15 and above 75 degrees as written: all six
      assignments go to the dry a coefficient, which ends as the wet c
      entry, and the other five keep their initial 1. */
  function EndCoefficientsAsWritten(k: nat, cosSeason: real): (r: Niell)
    requires k == 0 || k == 4
    ensures r.aDry == CWetAvg[k] && r.aWet == 1.0
    ensures r != TableCoefficients(k, cosSeason)
  {
    Niell(CWetAvg[k], 1.0, 1.0, 1.0, 1.0, 1.0)
  }

  /** The interpolation index and scale the latitude loop leaves, as
      written: every table latitude above the station's overwrites the
      pair, so any latitude below 60 degrees ends with the 45-60 degree
      rows and a scale measured backwards from 60 (above 1, extrapolating,
      below 45 degrees), and 60 degrees and above keep the first rows with
      scale 0. */
  function BracketAsWritten(latDeg: real): (r: (nat, real))
    ensures r.0 < 4
    ensures latDeg < 60.0 ==> r.0 == 2
    ensures latDeg < 45.0 ==> r.1 > 1.0
    ensures 60.0 <= latDeg ==> r == (0, 0.0)
  {
    if latDeg < 60.0 then (2, (latDeg - 60.0) / (45.0 - 60.0)) else (0, 0.0)
  }

  /** The latitude loop of CalculateTRK223 as written. */
  method NiellBracketAsWritten(latDeg: real) returns (index: nat, scale: real)
    ensures (index, scale) == BracketAsWritten(latDeg)
  {
    index, scale := 0, 0.0;
    var i := 1;
    while i < 4
      invariant 1 <= i <= 4
      invariant (i == 1 || latDeg >= LatitudeTable[i - 1]) ==> index == 0 && scale == 0.0
      invariant i > 1 && latDeg < LatitudeTable[i - 1] ==>
                  index == i - 2 && scale == (latDeg - LatitudeTable[i - 1]) / (LatitudeTable[i - 2] - LatitudeTable[i - 1])
    {
      if latDeg < LatitudeTable[i] {
        scale := (latDeg - LatitudeTable[i]) / (LatitudeTable[i - 1] - LatitudeTable[i]);
        index := i - 1;
      }
      i := i + 1;
    }
    assert LatitudeTable[2] == 45.0 && LatitudeTable[3] == 60.0;
  }

  /** The bracket as evidently intended: the table interval holding the
      latitude and the scale that interpolates its ends back to the
      latitude. */
  function Bracket(latDeg: real): (r: (nat, real))
    requires 15.0 <= latDeg <= 75.0
    ensures r.0 < 4 && LatitudeTable[r.0] <= latDeg <= LatitudeTable[r.0 + 1]
    ensures 0.0 <= r.1 <= 1.0
    ensures LinearInterpolator(LatitudeTable[r.0], LatitudeTable[r.0 + 1], r.1) == latDeg
  {
    var k: nat := if latDeg < 30.0 then 0 else if latDeg < 45.0 then 1 else if latDeg < 60.0 then 2 else 3;
    InterpolatorInverse(LatitudeTable[k], LatitudeTable[k + 1], latDeg);
    (k, (latDeg - LatitudeTable[k]) / (LatitudeTable[k + 1] - LatitudeTable[k]))
  }

  /** The latitude loop as evidently intended: the first table latitude
      above the station closes the interval. */
  method NiellBracket(latDeg: real) returns (index: nat, scale: real)
    requires 15.0 <= latDeg <= 75.0
    ensures (index, scale) == Bracket(latDeg)
  {
    var i := 1;
    while i < 4 && LatitudeTable[i] <= latDeg
      invariant 1 <= i <= 4
      invariant LatitudeTable[i - 1] <= latDeg
    {
      i := i + 1;
    }
    index := i - 1;
    scale := (latDeg - LatitudeTable[index]) / (LatitudeTable[index + 1] - LatitudeTable[index]);
  }

  /** The coefficients CalculateTRK223 evidently intends for a station at
      latDeg degrees (either hemisphere): the end rows outside the table,
      the interpolated rows inside, meeting the table at every table
      latitude. */
  function NiellCoefficients(latDeg: real, cosSeason: real): (r: Niell)
    ensures Abs(latDeg) < 15.0 ==> r == TableCoefficients(0, cosSeason)
    ensures Abs(latDeg) > 75.0 ==> r == TableCoefficients(4, cosSeason)
  {
    var lat := Abs(latDeg);
    if lat < 15.0 then TableCoefficients(0, cosSeason)
    else if lat > 75.0 then TableCoefficients(4, cosSeason)
    else
      var b := Bracket(lat);
      InterpolatedCoefficients(b.0, b.1, cosSeason)
  }

  /** The coefficients meet the table at every table latitude. */
  lemma NiellMeetsTable(k: nat, cosSeason: real)
    requires k < 5
    ensures NiellCoefficients(LatitudeTable[k], cosSeason) == TableCoefficients(k, cosSeason)
  {
    var lat := LatitudeTable[k];
    assert Abs(lat) == lat;
    if k < 4 {
      assert Bracket(lat) == (k, 0.0);
    } else {
      assert Bracket(lat) == (3, 1.0);
    }
  }

  /** The coefficients as written. */
  function NiellCoefficientsAsWritten(latDeg: real, cosSeason: real): Niell
  {
    var lat := Abs(latDeg);
    if lat < 15.0 then EndCoefficientsAsWritten(0, cosSeason)
    else if lat > 75.0 then EndCoefficientsAsWritten(4, cosSeason)
    else
      var b := BracketAsWritten(lat);
      InterpolatedCoefficients(b.0, b.1, cosSeason)
  }

  /** At the table latitude 30 degrees the coefficients as written are not
      that table row: the wet a coefficient is extrapolated from the 45 and
      60 degree rows. */
  lemma NiellAsWrittenMissesTableRow(cosSeason: real)
    ensures NiellCoefficientsAsWritten(30.0, cosSeason).aWet != TableCoefficients(1, cosSeason).aWet
  {
    assert BracketAsWritten(30.0) == (2, 2.0);
    assert NiellCoefficientsAsWritten(30.0, cosSeason).aWet == LinearInterpolator(AWetAvg[2], AWetAvg[3], 2.0);
  }

  /** Inside 45-60 degrees the loop as written finds the right interval
      but measures the scale backwards, from 60 instead of from 45: it is
      one minus the intended scale, so the rows are interpolated at the
      latitude mirrored in the interval, and at 45 degrees the coefficients
      are the 60-degree row instead of the 45-degree one. */
  lemma {:induction false} ScaleReversedFrom45To60(latDeg: real, cosSeason: real)
    requires 45.0 <= latDeg < 60.0
    ensures BracketAsWritten(latDeg).0 == Bracket(latDeg).0 == 2
    ensures BracketAsWritten(latDeg).1 == 1.0 - Bracket(latDeg).1
    ensures LinearInterpolator(LatitudeTable[2], LatitudeTable[3], BracketAsWritten(latDeg).1) == 105.0 - latDeg
    ensures latDeg == 45.0 ==>
              && BracketAsWritten(latDeg) == (2, 1.0) && Bracket(latDeg) == (2, 0.0)
              && NiellCoefficientsAsWritten(latDeg, cosSeason) == TableCoefficients(3, cosSeason)
              && NiellCoefficientsAsWritten(latDeg, cosSeason).aWet != TableCoefficients(2, cosSeason).aWet
  {
    assert LatitudeTable[2] == 45.0 && LatitudeTable[3] == 60.0;
    if latDeg == 45.0 {
      assert BracketAsWritten(45.0) == (2, 1.0);
      assert NiellCoefficientsAsWritten(45.0, cosSeason) == InterpolatedCoefficients(2, 1.0, cosSeason);
    }
  }

  // ---------------------------------------------------------------------
  // The correction

  /** What the measurement model supplies for one correction: the
      station's latitude and longitude in degrees; the results of the
      physics this model does not describe (the Hopfield-Saastamoinen range
      and elevation corrections or their error, Marini's closed form from
      NS and HT, the fractional expansion of a mapping function at the
      elevation angle, 1 / sin of that angle, Lanyi's elevation
      correction, and the cosine of the Niell seasonal phase at the epoch);
      the Marini data file's rows or its error; and the value an unset
      station number holds. */
  datatype Environment = Environment(
    latitudeDeg: real,
    longitudeDeg: real,
    hopfieldSaastamoinen: Result<(real, real)>,
    mariniFile: Result<seq<MariniRow>>,
    mariniFileName: string,
    marini: (int, real) -> (real, real),
    expander: (real, real, real) -> real,
    inverseSine: real,
    lanyi: real,
    cosSeason: real,
    unsetNumber: int)

  /** The range correction (m), the elevation correction (rad) and the
      time delay (s) the range correction amounts to. */
  function CorrectionVector(drho: real, dE: real): (r: seq<real>)
    ensures |r| == 3 && r[0] == drho && r[1] == dE && r[2] * SpeedOfLight == drho
  {
    [drho, dE, drho / SpeedOfLight]
  }

  function UnknownModel(name: string): string
  {
    "Troposphere::Correction: Unrecognized Troposphere model " + name
    + " used\nSupported models are HopfieldSaastamoinen, Marini, and TRK-2-23\n"
  }

  function UnableToLoad(fileName: string): string
  {
    "Unable to load refractivity data from troposphere data file \"" + fileName + "\"\n"
  }

  /** The Hopfield-Saastamoinen correction. */
  function HsResult(env: Environment): Result<seq<real>>
  {
    match env.hopfieldSaastamoinen
    case Err(m) => Err(m)
    case Ok(c) => Ok(CorrectionVector(c.0, c.1))
  }

  /** The Marini table after a correction: loaded when it was empty. */
  function MariniDataAfter(data: seq<MariniRow>, env: Environment): seq<MariniRow>
  {
    if |data| == 0 && env.mariniFile.Ok? then env.mariniFile.value else data
  }

  /** The Marini correction: the table, loaded first when empty (a file
      error, or a file without rows, is an error), gives NS and HT for the
      month before (January is 0), which the closed form turns into the
      corrections. */
  function MariniResult(data: seq<MariniRow>, month: int, env: Environment): (r: Result<seq<real>>)
    ensures |data| == 0 && env.mariniFile.Ok? && |env.mariniFile.value| == 0 ==> r == Err(UnableToLoad(env.mariniFileName))
    ensures r.Ok? ==> var table := MariniDataAfter(data, env);
              |table| > 0 && TrogetSpec(table, env.latitudeDeg, env.longitudeDeg, month - 1).Ok?
  {
    if |data| == 0 && env.mariniFile.Err? then Err(env.mariniFile.msg)
    else
      var table := MariniDataAfter(data, env);
      if |table| == 0 then Err(UnableToLoad(env.mariniFileName))
      else match TrogetSpec(table, env.latitudeDeg, env.longitudeDeg, month - 1)
        case Err(m) => Err(m)
        case Ok(p) =>
          var c := env.marini(p.0, p.1);
          Ok(CorrectionVector(c.0, c.1))
  }

  /** The TRK-2-23 correction for the mapped station and complex: the
      zenith corrections of the lines found, scaled by the Niell dry
      mapping (plus its height term) and wet mapping. */
  function Trk223Result(rows: seq<seq<string>>, mapped: (string, string), epoch: real, stationHeight: real,
                        env: Environment, conv: Conversions): (r: Result<seq<real>>)
    ensures LinesUpTo(rows, |rows|, Query(mapped.1, mapped.0, epoch, conv)).Ok? &&
            LinesUpTo(rows, |rows|, Query(mapped.1, mapped.0, epoch, conv)).value.seasonal[0] == -1 ==>
              r == Err(SeasonalMissing(mapped.0))
    ensures r.Ok? ==> |r.value| == 3 && r.value[1] == env.lanyi
  {
    match LinesUpTo(rows, |rows|, Query(mapped.1, mapped.0, epoch, conv))
    case Err(m) => Err(m)
    case Ok(l) =>
      match ZenithCorrections(rows, l, mapped.0, SolverAt(epoch, conv))
      case Err(m) => Err(m)
      case Ok(z) =>
        var c := NiellCoefficients(env.latitudeDeg, env.cosSeason);
        Ok(MappedCorrection(z, c, stationHeight, env))
  }

  /** The dry and wet zenith corrections mapped to the elevation angle. */
  function MappedCorrection(zenith: (real, real), c: Niell, stationHeight: real, env: Environment): seq<real>
  {
    var mDry := env.expander(c.aDry, c.bDry, c.cDry);
    var mDryDelta := (env.inverseSine - env.expander(AHeight, BHeight, CHeight)) * stationHeight;
    var wetScale := env.expander(c.aWet, c.bWet, c.cWet);
    CorrectionVector(zenith.0 * (mDry + mDryDelta) + zenith.1 * wetScale, env.lanyi)
  }

  predicate IsKnownModel(name: string)
  {
    name == "HopfieldSaastamoinen" || name == "Marini" || name == "TRK-2-23"
  }

  /** The troposphere correction object. The media-correction base class
      supplies the model name, the ground station id and the DSN media
      database; the constructor takes them. */
  class Troposphere {
    var modelTypeName: string
    var groundStationId: string
    var dsnDatabase: seq<seq<string>>
    var month: int
    var epoch: real
    var stationHeight: real
    var mariniData: seq<MariniRow>

    constructor(modelName: string, stationId: string, database: seq<seq<string>>)
      ensures modelTypeName == modelName && groundStationId == stationId && dsnDatabase == database
      ensures month == 0 && epoch == 0.0 && stationHeight == 0.0 && mariniData == []
    {
      modelTypeName, groundStationId, dsnDatabase := modelName, stationId, database;
      month, epoch, stationHeight, mariniData := 0, 0.0, 0.0, [];
    }

    method SetStationHeight(height: real) returns (ok: bool)
      modifies this
      ensures ok && stationHeight == height
      ensures modelTypeName == old(modelTypeName) && groundStationId == old(groundStationId)
      ensures dsnDatabase == old(dsnDatabase) && month == old(month) && epoch == old(epoch)
      ensures mariniData == old(mariniData)
    {
      stationHeight := height;
      return true;
    }

    /** SetTime: the epoch, and its calendar month (1 to 12) as monthOf
        gives it from the A.1 date. */
    method SetTime(ep: real, monthOf: real -> int) returns (ok: bool)
      modifies this
      ensures ok && epoch == ep && month == monthOf(ep)
      ensures modelTypeName == old(modelTypeName) && groundStationId == old(groundStationId)
      ensures dsnDatabase == old(dsnDatabase) && stationHeight == old(stationHeight)
      ensures mariniData == old(mariniData)
    {
      epoch := ep;
      month := monthOf(ep);
      return true;
    }

    /** TROGET over the loaded table. */
    method Troget(latDeg: real, lonDeg: real, mon: int) returns (r: Result<(int, real)>)
      ensures r == TrogetSpec(mariniData, latDeg, lonDeg, mon)
    {
      var code := DefaultRefractivity;
      var ii := 0;
      while ii < |mariniData|
        invariant 0 <= ii <= |mariniData|
        invariant FirstNearFrom(mariniData, 0, latDeg, lonDeg) == FirstNearFrom(mariniData, ii, latDeg, lonDeg)
      {
        if NearStation(mariniData[ii], latDeg, lonDeg) {
          if !(0 <= mon < |mariniData[ii].refractivity|) {
            return Err(IndexError);
          }
          code := mariniData[ii].refractivity[mon];
          return Ok(DecodeRefractivity(code));
        }
        ii := ii + 1;
      }
      return Ok(DecodeRefractivity(code));
    }

    method CalculateMarini(env: Environment) returns (r: Result<seq<real>>)
      modifies this
      ensures r == MariniResult(old(mariniData), month, env)
      ensures mariniData == MariniDataAfter(old(mariniData), env)
      ensures modelTypeName == old(modelTypeName) && groundStationId == old(groundStationId)
      ensures dsnDatabase == old(dsnDatabase) && month == old(month) && epoch == old(epoch)
      ensures stationHeight == old(stationHeight)
    {
      if |mariniData| == 0 {
        if env.mariniFile.Err? {
          return Err(env.mariniFile.msg);
        }
        mariniData := env.mariniFile.value;
        if |mariniData| == 0 {
          return Err(UnableToLoad(env.mariniFileName));
        }
      }
      var p := Troget(env.latitudeDeg, env.longitudeDeg, month - 1);
      if p.Err? {
        return Err(p.msg);
      }
      var c := env.marini(p.value.0, p.value.1);
      return Ok(CorrectionVector(c.0, c.1));
    }

    /** The Niell coefficients at the station's latitude. */
    static method NiellAt(latDeg: real, cosSeason: real) returns (c: Niell)
      ensures c == NiellCoefficients(latDeg, cosSeason)
    {
      var lat := Abs(latDeg);
      if lat < 15.0 {
        c := TableCoefficients(0, cosSeason);
      } else if lat > 75.0 {
        c := TableCoefficients(4, cosSeason);
      } else {
        var index, scale := NiellBracket(lat);
        c := InterpolatedCoefficients(index, scale, cosSeason);
      }
    }

    method CalculateTrk223(env: Environment, conv: Conversions) returns (r: Result<seq<real>>)
      modifies this
      ensures groundStationId == StationMapping(old(groundStationId), conv.intOf, env.unsetNumber).0
      ensures r == Trk223Result(dsnDatabase, StationMapping(old(groundStationId), conv.intOf, env.unsetNumber),
                                epoch, stationHeight, env, conv)
      ensures modelTypeName == old(modelTypeName) && dsnDatabase == old(dsnDatabase) && month == old(month)
      ensures epoch == old(epoch) && stationHeight == old(stationHeight) && mariniData == old(mariniData)
    {
      var mapped := StationMapping(groundStationId, conv.intOf, env.unsetNumber);
      groundStationId := mapped.0;
      var lines := SelectLines(dsnDatabase, Query(mapped.1, mapped.0, epoch, conv));
      if lines.Err? {
        return Err(lines.msg);
      }
      assert SolvesAt(SolverAt(epoch, conv), epoch, conv);
      var zenith := CombineCorrections(dsnDatabase, lines.value, mapped.0, epoch, conv, SolverAt(epoch, conv));
      if zenith.Err? {
        return Err(zenith.msg);
      }
      var c := NiellAt(env.latitudeDeg, env.cosSeason);
      return Ok(MappedCorrection(zenith.value, c, stationHeight, env));
    }

    /** Correction: the model named by modelTypeName, or an error naming
        an unknown model; every correction is a range correction, an
        elevation correction and the matching time delay. */
    method Correction(env: Environment, conv: Conversions) returns (r: Result<seq<real>>)
      modifies this
      ensures !IsKnownModel(old(modelTypeName)) ==> r == Err(UnknownModel(old(modelTypeName)))
      ensures old(modelTypeName) == "HopfieldSaastamoinen" ==> r == HsResult(env)
      ensures old(modelTypeName) == "Marini" ==> r == MariniResult(old(mariniData), old(month), env)
      ensures old(modelTypeName) == "TRK-2-23" ==>
                r == Trk223Result(old(dsnDatabase), StationMapping(old(groundStationId), conv.intOf, env.unsetNumber),
                                  old(epoch), old(stationHeight), env, conv)
      ensures r.Ok? ==> |r.value| == 3 && r.value[2] * SpeedOfLight == r.value[0]
      ensures modelTypeName == old(modelTypeName) && dsnDatabase == old(dsnDatabase) && month == old(month)
      ensures epoch == old(epoch) && stationHeight == old(stationHeight)
      ensures old(modelTypeName) != "Marini" ==> mariniData == old(mariniData)
      ensures old(modelTypeName) != "TRK-2-23" ==> groundStationId == old(groundStationId)
    {
      if modelTypeName == "HopfieldSaastamoinen" {
        r := HsResult(env);
      } else if modelTypeName == "Marini" {
        r := CalculateMarini(env);
      } else if modelTypeName == "TRK-2-23" {
        r := CalculateTrk223(env, conv);
      } else {
        r := Err(UnknownModel(modelTypeName));
      }
    }
  }
}
