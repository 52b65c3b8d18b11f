/** The reader of CCSDS Orbit Ephemeris Message files
    (src/gmatutil/util/CCSDSOEMReader.cpp): the version check and the line
    loop of ParseFile, which walks the header, then meta-data blocks, data
    blocks and covariance blocks, building one segment per meta-data block.

    A file is given as its lines, each already split into its
    whitespace-separated words; a line without words is blank. Epoch
    parsing, the reading of reals and the segment's acceptance of meta-data
    pairs belong to other classes and are parameters (Env). */
module CCSDSOEMReaderModel {
  import opened Common

  // ---------------------------------------------------------------------
  // Words and keywords

  /** The keywords the reader compares upper-cased first words against. */
  datatype Keyword =
    | MetaStart | MetaStop | CovarianceStart | CovarianceStop
    | Comment | CreationDate | Originator | VersionField | OtherKey

  function UpperChar(c: char): char
  {
    if 'a' <= c <= 'z' then (c as int - 32) as char else c
  }

  /** GmatStringUtil::ToUpper on ASCII letters. */
  function Upper(s: string): (r: string)
    ensures |r| == |s| && forall i :: 0 <= i < |s| ==> r[i] == UpperChar(s[i])
  {
    seq(|s|, i requires 0 <= i < |s| => UpperChar(s[i]))
  }

  function KeywordOf(word: string): Keyword
  {
    var w := Upper(word);
    if w == "META_START" then MetaStart
    else if w == "META_STOP" then MetaStop
    else if w == "COVARIANCE_START" then CovarianceStart
    else if w == "COVARIANCE_STOP" then CovarianceStop
    else if w == "COMMENT" then Comment
    else if w == "CREATION_DATE" then CreationDate
    else if w == "ORIGINATOR" then Originator
    else if w == "CCSDS_OEM_VERS" then VersionField
    else OtherKey
  }

  /** The words joined by single spaces. */
  function Join(ws: seq<string>): string
  {
    if ws == [] then "" else if |ws| == 1 then ws[0] else ws[0] + " " + Join(ws[1..])
  }

  /** The rest of a line after its first k words, trimmed. */
  function RestOf(words: seq<string>, k: nat): string
  {
    if k < |words| then Join(words[k..]) else ""
  }

  /** The word at index c, or the empty string when the line is shorter:
      what extracting a string from an exhausted line stream leaves. */
  function TokenAt(words: seq<string>, c: nat): string
  {
    if c < |words| then words[c] else ""
  }

  /** The behaviour of the classes the reader calls: the run mode, epoch
      parsing (CCSDSEMSegment::ParseEpoch, None where it throws), reading a
      real from a word, the segment's acceptance of a meta-data pair, and
      the data size of a new segment. */
  datatype Env = Env(testing: bool, epochOf: string -> Option<real>, realOf: string -> Option<real>,
                     metaAccepted: (string, string) -> bool, segmentDataSize: nat)

  // ---------------------------------------------------------------------
  // Messages

  function Prefix(emFile: string): string
  {
    "Error reading ephemeris message file \"" + emFile + "\""
  }

  const VersionTwoMessage: string :=
    "Error: Usage of CCSDS OEM v2 ephemeris data file is only allowed for running in TESTING mode.\n"
  const EqualSignDetail: string := ".  Equal sign missing or incorrect.\n"
  const CommentDetail: string :=
    ".  Comment lines must not appear within any block of ephemeris lines or covariance matrix lines.\n"
  const CovarianceCommentDetail: string :=
    ".  Meta data comment lines must appear directly after COVARIANCE_START.\n"
  const MissingDataDetail: string := "  Missing data.\n"
  const VersionFieldDetail: string :=
    ".  Field \"CCSDS_OEM_VERS\", specifying version number, must appear in first non-blank line.\n"
  const CreationDateDetail: string := ".  CREATION_DATE is invalid.\n"
  const MissingMetaStopDetail: string := "  Missing META_STOP.\n"
  const MissingMetaStartDetail: string := "  missing META_START.\n"
  const MissingCovarianceStartDetail: string := "  missing COVARIANCE_START.\n"
  const MetaStartNotFoundDetail: string := ".  \"META_START\" not found.\n"

  /** The message for a meta-data pair the new segment refuses. */
  function InvalidPairDetail(key: string, value: string): string
  {
    "  Invalid keyword = value pair (" + key + "," + value + ").\n"
  }

  /** The message of a reader error: the file name, then the detail. */
  function Failure(emFile: string, detail: string): string
  {
    Prefix(emFile) + detail
  }

  function InvalidVersionDetail(versionValue: string): string
  {
    ".  Version number \"" + versionValue + "\" is not valid.\n"
  }

  function NotInHeaderDetail(word: string): string
  {
    ".  Field " + word + " is not allowed in the header.\n"
  }

  function CovarianceInMetaDetail(keyword: string): string
  {
    ". " + keyword + " key word is not allowed to appear between META_START and META_STOP.\n"
  }

  function NotRealDetail(token: string): string
  {
    ".  A non real number: " + token + " is in the lower-left covariance matrix\n"
  }

  function LineNotAllowedDetail(words: seq<string>): string
  {
    ". This line \"" + Join(words) + "\" is not allowed in the file.\n"
  }

  /** Stands for the message CCSDSEMSegment::ParseEpoch throws, which is
      not part of this model. */
  function EpochFailure(epoch: string): string
  {
    "Invalid epoch: " + epoch
  }

  // ---------------------------------------------------------------------
  // Version

  /** IsValidVersion: "1.0" is valid, "2.0" only when running in testing
      mode (otherwise an error), anything else is not. */
  function IsValidVersion(versionValue: string, testing: bool): (r: Result<bool>)
    ensures r == Ok(true) <==> versionValue == "1.0" || (versionValue == "2.0" && testing)
    ensures r.Err? <==> versionValue == "2.0" && !testing
  {
    if versionValue == "1.0" then Ok(true)
    else if versionValue == "2.0" then (if testing then Ok(true) else Err(VersionTwoMessage))
    else Ok(false)
  }

  /** The check of the first line: the version keyword, an equal sign and
      a valid version, which is returned. */
  function VersionLine(words: seq<string>, emFile: string, testing: bool): (r: Result<string>)
    ensures r.Ok? <==>
      && |words| >= 3 && KeywordOf(words[0]) == VersionField && words[1] == "="
      && (words[2] == "1.0" || (words[2] == "2.0" && testing))
    ensures r.Ok? ==> r.value == words[2]
  {
    if |words| == 0 || KeywordOf(words[0]) != VersionField then
      Err(Failure(emFile, VersionFieldDetail))
    else if |words| < 2 || words[1] != "=" then Err(Failure(emFile, EqualSignDetail))
    else
      var versionValue := TokenAt(words, 2);
      match IsValidVersion(versionValue, testing)
      case Err(m) => Err(m)
      case Ok(valid) =>
        if valid then Ok(versionValue)
        else Err(Failure(emFile, InvalidVersionDetail(versionValue)))
  }

  // ---------------------------------------------------------------------
  // The equal sign of "keyword = value" lines

  /** A "keyword = value" line has "=" as its second word. */
  predicate EqualSignFollows(words: seq<string>)
  {
    |words| >= 2 && words[1] == "="
  }

  /** The check as the header and meta-data loops perform it: the second
      word is extracted into a string kept from earlier lines, and when the
      line has no second word the extraction fails and leaves that string
      as it was. Returns whether the check passes and the string after. */
  function EqualSignAsWritten(words: seq<string>, eqSign: string): (r: (bool, string))
    ensures r.0 <==> r.1 == "="
  {
    var next := if |words| >= 2 then words[1] else eqSign;
    (next == "=", next)
  }

  /** Once the version line has passed, the kept string is "=" and every
      passing check leaves it so; hence a keyword line without a second
      word passes, although the intended check rejects it. */
  lemma MissingEqualSignAccepted()
    ensures EqualSignAsWritten(["ORIGINATOR"], "=").0
    ensures !EqualSignFollows(["ORIGINATOR"])
  {
  }

  /** The check as written agrees with the intended one on every line that
      has a second word. */
  lemma EqualSignAgreesWithSecondWord(words: seq<string>, eqSign: string)
    requires |words| >= 2
    ensures EqualSignAsWritten(words, eqSign).0 == EqualSignFollows(words)
  {
  }

  // ---------------------------------------------------------------------
  // Data lines

  /** The number of words from the start of ts that read as reals. */
  function LeadingReals(ts: seq<string>, realOf: string -> Option<real>): (n: nat)
    ensures n <= |ts|
    ensures forall i :: 0 <= i < n ==> realOf(ts[i]).Some?
    ensures n < |ts| ==> realOf(ts[n]).None?
  {
    if ts == [] || realOf(ts[0]).None? then 0 else 1 + LeadingReals(ts[1..], realOf)
  }

  /** The first n words of ts as reals. */
  function RealsOf(ts: seq<string>, n: nat, realOf: string -> Option<real>): (r: seq<real>)
    requires n <= LeadingReals(ts, realOf)
    ensures |r| == n && forall i :: 0 <= i < n ==> realOf(ts[i]) == Some(r[i])
  {
    seq(n, i requires 0 <= i < n => realOf(ts[i]).value)
  }

  /** What the value loop of a data line yields: the first dataSize values
      after the epoch and the data size to use from now on, which becomes 6
      when the line ends after exactly six values; fewer values are
      missing data. */
  function DataValues(words: seq<string>, dataSize: nat, realOf: string -> Option<real>): (r: Result<(seq<real>, nat)>)
    requires |words| > 0
    ensures r.Ok? ==> |r.value.0| == r.value.1 && (r.value.1 == dataSize || r.value.1 == 6) && r.value.1 < |words|
    ensures r.Ok? ==> forall i :: 0 <= i < r.value.1 ==> realOf(words[i + 1]) == Some(r.value.0[i])
    ensures r.Err? <==> LeadingReals(words[1..], realOf) < dataSize && LeadingReals(words[1..], realOf) != 6
  {
    var ts := words[1..];
    var n := LeadingReals(ts, realOf);
    if n >= dataSize then Ok((RealsOf(ts, dataSize, realOf), dataSize))
    else if n == 6 then Ok((RealsOf(ts, 6, realOf), 6))
    else Err(MissingDataDetail)
  }

  /** The value loop of a data line. */
  method ReadDataValues(words: seq<string>, dataSize: nat, realOf: string -> Option<real>)
    returns (res: Result<(seq<real>, nat)>)
    requires |words| > 0
    ensures res == DataValues(words, dataSize, realOf)
  {
    var ts := words[1..];
    ghost var n := LeadingReals(ts, realOf);
    var size := dataSize;
    var values: seq<real> := [];
    var ii := 0;
    while ii < size
      invariant (size == dataSize && ii <= size && ii <= n && values == RealsOf(ts, ii, realOf))
             || (size == 6 && ii == 7 && n == 6 && dataSize > 6 && values == RealsOf(ts, 6, realOf))
    {
      if ii < |ts| && realOf(ts[ii]).Some? {
        values := values + [realOf(ts[ii]).value];
      } else if ii == 6 {
        size := 6;
      } else {
        return Err(MissingDataDetail);
      }
      ii := ii + 1;
    }
    return Ok((values, size));
  }

  // ---------------------------------------------------------------------
  // Covariance rows

  /** The sum 1 + 2 + ... + r: the number of values in the first r rows of
      a lower triangle. */
  function Tri(r: nat): nat
  {
    if r == 0 then 0 else Tri(r - 1) + r
  }

  /** The first count words of a covariance row as reals; the first word
      that does not read as one is reported. */
  function RowValues(words: seq<string>, count: nat, realOf: string -> Option<real>): (r: Result<seq<real>>)
    ensures r.Ok? ==> |r.value| == count
    ensures r.Ok? ==> forall c :: 0 <= c < count ==> realOf(TokenAt(words, c)) == Some(r.value[c])
  {
    if count == 0 then Ok([])
    else match RowValues(words, count - 1, realOf)
      case Err(m) => Err(m)
      case Ok(vs) =>
        var token := TokenAt(words, count - 1);
        match realOf(token)
        case None => Err(NotRealDetail(token))
        case Some(v) => Ok(vs + [v])
  }

  /** A row is rejected exactly when one of its first count words does
      not read as a real. */
  lemma {:induction false} RowValuesRejects(words: seq<string>, count: nat, realOf: string -> Option<real>)
    ensures RowValues(words, count, realOf).Err? <==> exists c :: 0 <= c < count && realOf(TokenAt(words, c)).None?
  {
    if count > 0 {
      RowValuesRejects(words, count - 1, realOf);
    }
  }

  /** Once a prefix of a row reports a word that is not a real, every
      longer prefix reports the same word. */
  lemma {:induction false} RowValuesErrorPersists(words: seq<string>, c: nat, d: nat, realOf: string -> Option<real>)
    requires c <= d && RowValues(words, c, realOf).Err?
    ensures RowValues(words, d, realOf) == RowValues(words, c, realOf)
  {
    if c < d {
      RowValuesErrorPersists(words, c, d - 1, realOf);
    }
  }

  /** v with vals written from index idx on. */
  function WriteAt(v: seq<real>, idx: nat, vals: seq<real>): (r: seq<real>)
    requires idx + |vals| <= |v|
    ensures |r| == |v|
  {
    v[..idx] + vals + v[idx + |vals|..]
  }

  /** Writing one more value after those written extends the write. */
  lemma WriteAtExtend(v: seq<real>, idx: nat, vals: seq<real>, x: real)
    requires idx + |vals| + 1 <= |v|
    ensures WriteAt(v, idx, vals)[idx + |vals| := x] == WriteAt(v, idx, vals + [x])
  {
    var a := WriteAt(v, idx, vals)[idx + |vals| := x];
    var b := WriteAt(v, idx, vals + [x]);
    assert forall i :: 0 <= i < |v| ==> a[i] == b[i];
  }

  /** The column loop of a covariance row: row r of the lower triangle
      carries r + 1 values, written from index idx on. */
  method ReadCovarianceRow(words: seq<string>, row: nat, idx: nat, covValue: seq<real>, realOf: string -> Option<real>)
    returns (res: Result<seq<real>>)
    requires idx + row + 1 <= |covValue|
    ensures RowValues(words, row + 1, realOf).Err? ==> res == Err(RowValues(words, row + 1, realOf).msg)
    ensures RowValues(words, row + 1, realOf).Ok? ==> res == Ok(WriteAt(covValue, idx, RowValues(words, row + 1, realOf).value))
  {
    var values := covValue;
    ghost var written: seq<real> := [];
    var col := 0;
    while col <= row
      invariant 0 <= col <= row + 1
      invariant RowValues(words, col, realOf) == Ok(written)
      invariant values == WriteAt(covValue, idx, written)
    {
      var strVal := TokenAt(words, col);
      var val := realOf(strVal);
      if val.None? {
        RowValuesErrorPersists(words, col + 1, row + 1, realOf);
        return Err(NotRealDetail(strVal));
      }
      WriteAtExtend(covValue, idx, written, val.value);
      values := values[idx + col := val.value];
      written := written + [val.value];
      col := col + 1;
    }
    return Ok(values);
  }

  /** The concatenation of the rows. */
  function Flatten(rows: seq<seq<real>>): seq<real>
  {
    if rows == [] then [] else Flatten(rows[..|rows| - 1]) + rows[|rows| - 1]
  }

  /** Row r has r + 1 values. */
  predicate TriangleRows(rows: seq<seq<real>>)
  {
    forall r :: 0 <= r < |rows| ==> |rows[r]| == r + 1
  }

  lemma {:induction false} FlattenSize(rows: seq<seq<real>>)
    requires TriangleRows(rows)
    ensures |Flatten(rows)| == Tri(|rows|)
  {
    if rows != [] {
      FlattenSize(rows[..|rows| - 1]);
    }
  }

  /** The vector after writing the rows in turn, row r from Tri(r) on, as
      the corrected reader keeps one vector across the rows of a record. */
  function FillRows(v: seq<real>, rows: seq<seq<real>>): (r: seq<real>)
    requires TriangleRows(rows) && Tri(|rows|) <= |v|
    ensures |r| == |v|
  {
    if rows == [] then v
    else
      var k := |rows| - 1;
      WriteAt(FillRows(v, rows[..k]), Tri(k), rows[k])
  }

  /** Rows written in turn from the triangle offsets lay the triangle out
      row by row. */
  lemma {:induction false} FillRowsLaysOutTriangle(v: seq<real>, rows: seq<seq<real>>)
    requires TriangleRows(rows) && Tri(|rows|) <= |v|
    ensures FillRows(v, rows)[..Tri(|rows|)] == Flatten(rows)
  {
    if rows != [] {
      var k := |rows| - 1;
      FillRowsLaysOutTriangle(v, rows[..k]);
      FlattenSize(rows[..k]);
      var prev := FillRows(v, rows[..k]);
      var next := FillRows(v, rows);
      assert next == WriteAt(prev, Tri(k), rows[k]);
      assert next[..Tri(k + 1)] == prev[..Tri(k)] + rows[k];
    }
  }

  /** Six rows make one 21-value lower triangle holding every row. */
  lemma SixRowsMakeRecord(v: seq<real>, rows: seq<seq<real>>)
    requires |v| == 21 && |rows| == 6 && TriangleRows(rows)
    ensures FillRows(v, rows) == Flatten(rows)
  {
    assert Tri(6) == 21;
    FillRowsLaysOutTriangle(v, rows);
  }

  /** The record as GMAT builds it: the value vector is declared
      inside the row branch, so each row starts from a freshly sized
      vector and the record holds only the last row, at its offset. */
  function RecordAsWritten(initial: seq<real>, rows: seq<seq<real>>): (r: seq<real>)
    requires |initial| == 21 && |rows| == 6 && TriangleRows(rows)
    ensures |r| == 21
  {
    WriteAt(initial, Tri(5), rows[5])
  }

  /** The record as written loses the first five rows: its first entry is
      whatever the initial vector held, not the first row's value. */
  lemma RecordAsWrittenLosesRows(initial: seq<real>, rows: seq<seq<real>>)
    requires |initial| == 21 && |rows| == 6 && TriangleRows(rows)
    requires rows[0][0] != initial[0]
    ensures RecordAsWritten(initial, rows)[0] == initial[0]
    ensures RecordAsWritten(initial, rows) != Flatten(rows)
  {
    assert Tri(5) == 15;
    assert Flatten(rows)[..Tri(6)] == Flatten(rows) by {
      FlattenSize(rows);
    }
    FlattenFirst(rows);
  }

  lemma {:induction false} FlattenFirst(rows: seq<seq<real>>)
    requires |rows| > 0 && TriangleRows(rows)
    ensures |Flatten(rows)| > 0 && Flatten(rows)[0] == rows[0][0]
  {
    if |rows| > 1 {
      FlattenFirst(rows[..|rows| - 1]);
    }
  }

  // ---------------------------------------------------------------------
  // The reader

  datatype DataRecord = DataRecord(epoch: real, values: seq<real>)
  datatype CovarianceRecord = CovarianceRecord(epoch: real, frame: string, comment: string, values: seq<real>)

  /** A segment: the data of one meta-data block and the data and
      covariance blocks that follow it. */
  datatype Segment = Segment(number: nat, meta: map<string, string>, metaComments: seq<string>,
                             dataComments: seq<string>, data: seq<DataRecord>, covariances: seq<CovarianceRecord>)

  datatype Header = Header(version: string, comments: seq<string>, creationDate: string, originator: string)

  /** The block the loop is in, and its covariance counters; reuse asks
      for the current line to be read again. */
  datatype Mode = InMeta | InData | InCovarianceMeta | InCovarianceData | AfterCovariance
  datatype Scan = Scan(mode: Mode, covRowIndex: nat, idx: nat, covValue: seq<real>, covComment: string, reuse: bool)

  predicate ScanValid(s: Scan)
  {
    && |s.covValue| == 21
    && (s.mode == InCovarianceData ==>
          s.covRowIndex < 6 && s.idx == Tri(s.covRowIndex) && s.idx + s.covRowIndex + 1 <= |s.covValue|)
  }

  /** Each of the six rows fits in the 21 values of a record. */
  lemma RowFitsTriangle(r: nat)
    requires r < 6
    ensures Tri(r) + r + 1 <= 21
  {
    assert Tri(1) == 1 && Tri(2) == 3 && Tri(3) == 6 && Tri(4) == 10 && Tri(5) == 15;
  }

  /** Segment k is numbered k, its covariance records hold 21 values and
      its data records hold the data size of a segment or 6. */
  predicate SegmentValid(s: Segment, k: nat, segmentDataSize: nat)
  {
    && s.number == k
    && (forall j :: 0 <= j < |s.covariances| ==> |s.covariances[j].values| == 21)
    && (forall j :: 0 <= j < |s.data| ==> |s.data[j].values| == segmentDataSize || |s.data[j].values| == 6)
  }

  predicate SegmentsValid(segments: seq<Segment>, segmentDataSize: nat)
  {
    forall k :: 0 <= k < |segments| ==> SegmentValid(segments[k], k, segmentDataSize)
  }

  /** Replacing the last segment by a valid one keeps the list valid. */
  lemma ReplaceLastKeepsValid(segments: seq<Segment>, s: Segment, segmentDataSize: nat)
    requires |segments| > 0 && SegmentsValid(segments, segmentDataSize)
    requires SegmentValid(s, |segments| - 1, segmentDataSize)
    ensures SegmentsValid(segments[|segments| - 1 := s], segmentDataSize)
  {
  }

  function AddMetaComment(segments: seq<Segment>, comment: string): (r: seq<Segment>)
    ensures |r| == |segments|
    ensures forall size: nat :: SegmentsValid(segments, size) ==> SegmentsValid(r, size)
  {
    if segments == [] then segments
    else
      var last := segments[|segments| - 1];
      segments[|segments| - 1 := last.(metaComments := last.metaComments + [comment])]
  }

  function AddDataComment(segments: seq<Segment>, comment: string): (r: seq<Segment>)
    requires |segments| > 0
    ensures |r| == |segments|
    ensures forall size: nat :: SegmentsValid(segments, size) ==> SegmentsValid(r, size)
  {
    var last := segments[|segments| - 1];
    segments[|segments| - 1 := last.(dataComments := last.dataComments + [comment])]
  }

  /** CCSDSEMSegment::AddData on the current (last) segment. */
  function AddDataRecord(segments: seq<Segment>, record: DataRecord): (r: seq<Segment>)
    requires |segments| > 0
    ensures |r| == |segments|
    ensures forall size: nat :: SegmentsValid(segments, size) && (|record.values| == size || |record.values| == 6) ==>
      SegmentsValid(r, size)
  {
    var last := segments[|segments| - 1];
    segments[|segments| - 1 := last.(data := last.data + [record])]
  }

  /** CCSDSEMSegment::AddCovarianceRecord on the current (last) segment. */
  function AddCovarianceRecord(segments: seq<Segment>, record: CovarianceRecord): (r: seq<Segment>)
    requires |segments| > 0
    ensures |r| == |segments|
    ensures forall size: nat :: SegmentsValid(segments, size) && |record.values| == 21 ==> SegmentsValid(r, size)
  {
    var last := segments[|segments| - 1];
    segments[|segments| - 1 := last.(covariances := last.covariances + [record])]
  }

  /** std::map::insert, which keeps an existing entry. */
  function InsertIfAbsent(m: map<string, string>, k: string, v: string): (r: map<string, string>)
    ensures k in r && (k in m ==> r == m) && (k !in m ==> r == m[k := v])
  {
    if k in m then m else m[k := v]
  }

  predicate AllAccepted(meta: map<string, string>, accepted: (string, string) -> bool)
  {
    forall k :: k in meta ==> accepted(k, meta[k])
  }

  // ---------------------------------------------------------------------
  // The order of std::map<std::string, std::string>

  /** std::string's less-than: lexicographic on character codes, a proper
      prefix first. */
  predicate Below(a: string, b: string)
  {
    if a == [] then b != []
    else b != [] && (a[0] < b[0] || (a[0] == b[0] && Below(a[1..], b[1..])))
  }

  lemma {:induction false} BelowTotal(a: string, b: string)
    ensures a == b || Below(a, b) || Below(b, a)
  {
    if a != [] && b != [] && a[0] == b[0] {
      BelowTotal(a[1..], b[1..]);
      if a[1..] == b[1..] {
        assert a == [a[0]] + a[1..] && b == [b[0]] + b[1..];
      }
    }
  }

  lemma {:induction false} BelowAsymmetric(a: string, b: string)
    ensures !(Below(a, b) && Below(b, a))
  {
    if a != [] && b != [] && a[0] == b[0] {
      BelowAsymmetric(a[1..], b[1..]);
    }
  }

  lemma {:induction false} BelowTransitive(a: string, b: string, c: string)
    requires Below(a, b) && Below(b, c)
    ensures Below(a, c)
  {
    if a != [] && a[0] == b[0] && b[0] == c[0] {
      BelowTransitive(a[1..], b[1..], c[1..]);
    }
  }

  /** The keys whose pair the segment refuses. */
  function Refused(meta: map<string, string>, accepted: (string, string) -> bool): (r: set<string>)
    ensures forall k :: k in r <==> k in meta && !accepted(k, meta[k])
    ensures r == {} <==> AllAccepted(meta, accepted)
  {
    set k | k in meta && !accepted(k, meta[k])
  }

  /** k comes first in s in the map's order. */
  predicate FirstIn(s: set<string>, k: string)
  {
    k in s && forall j :: j in s && j != k ==> Below(k, j)
  }

  lemma FirstUnique(s: set<string>, a: string, b: string)
    requires FirstIn(s, a) && FirstIn(s, b)
    ensures a == b
  {
    if a != b {
      BelowAsymmetric(a, b);
    }
  }

  /** Every non-empty set of keys has a first one. */
  lemma {:induction false} FirstExists(s: set<string>)
    requires s != {}
    ensures exists k :: FirstIn(s, k)
    decreases |s|
  {
    var x :| x in s;
    var rest := s - {x};
    if rest == {} {
      forall j | j in s
        ensures j == x
      {
        assert j !in rest;
      }
      assert FirstIn(s, x);
    } else {
      FirstExists(rest);
      var m :| FirstIn(rest, m);
      BelowTotal(x, m);
      if Below(x, m) {
        forall j | j in s && j != x
          ensures Below(x, j)
        {
          if j != m {
            BelowTransitive(x, m, j);
          }
        }
        assert FirstIn(s, x);
      } else {
        assert FirstIn(s, m);
      }
    }
  }

  /** The first refused pair's key in the map's order: the one the
      iteration over the map meets first. */
  ghost function FirstRefused(meta: map<string, string>, accepted: (string, string) -> bool): (k: string)
    requires !AllAccepted(meta, accepted)
    ensures FirstIn(Refused(meta, accepted), k) && k in meta && !accepted(k, meta[k])
  {
    FirstExists(Refused(meta, accepted));
    var k :| FirstIn(Refused(meta, accepted), k);
    k
  }

  /** The loop over the map that hands each pair to the segment, stopping
      at the first one it refuses. */
  method FindRefusedPair(meta: map<string, string>, accepted: (string, string) -> bool) returns (k: string)
    requires !AllAccepted(meta, accepted)
    ensures k == FirstRefused(meta, accepted)
  {
    var refused := Refused(meta, accepted);
    k :| k in refused;
    var rest := refused - {k};
    while rest != {}
      invariant rest <= refused && k in refused && k !in rest
      invariant forall j :: j in refused && j !in rest && j != k ==> Below(k, j)
      decreases |rest|
    {
      var j :| j in rest;
      BelowTotal(j, k);
      if Below(j, k) {
        forall i | i in refused && i !in rest - {j} && i != j
          ensures Below(j, i)
        {
          if i != k {
            BelowTransitive(j, k, i);
          }
        }
        k := j;
      }
      rest := rest - {j};
    }
    FirstUnique(refused, k, FirstRefused(meta, accepted));
  }

  function Lookup(m: map<string, string>, k: string): string
  {
    if k in m then m[k] else ""
  }

  class OEMReader {
    var emFile: string
    var isInitialized: bool
    var header: Header
    var nonCommentFound: bool
    var metaMap: map<string, string>
    var covarianceMetaMap: map<string, string>
    var dataSize: nat
    var numSegments: nat
    var segments: seq<Segment>

    /** Segments are numbered by creation, covariance records hold 21
        values, and data records hold the segment's data size or 6. */
    predicate Valid(segmentDataSize: nat)
      reads this
    {
      numSegments == |segments| && SegmentsValid(segments, segmentDataSize)
    }

    constructor (file: string)
      ensures emFile == file && !isInitialized && segments == [] && numSegments == 0
      ensures header == Header("", [], "", "") && !nonCommentFound && metaMap == map[] && covarianceMetaMap == map[]
    {
      emFile := file;
      isInitialized := false;
      header := Header("", [], "", "");
      nonCommentFound := false;
      metaMap := map[];
      covarianceMetaMap := map[];
      dataSize := 0;
      numSegments := 0;
      segments := [];
    }

    /** One non-blank line of the header: META_START ends the header
        (Ok(true)); comments are allowed only before the first keyword;
        CREATION_DATE (which must be an epoch) and ORIGINATOR are recorded;
        any other keyword is an error. */
    method ReadHeaderLine(words: seq<string>, env: Env) returns (res: Result<bool>)
      requires words != []
      modifies this
      ensures header.version == old(header.version)
      ensures emFile == old(emFile) && segments == old(segments) && numSegments == old(numSegments)
      ensures metaMap == old(metaMap) && covarianceMetaMap == old(covarianceMetaMap) && dataSize == old(dataSize)
      ensures isInitialized == old(isInitialized)
      ensures KeywordOf(words[0]) == MetaStart ==>
        res == Ok(true) && header == old(header) && nonCommentFound == old(nonCommentFound)
      ensures KeywordOf(words[0]) == Comment && old(nonCommentFound) ==> res == Err(Failure(emFile, CommentDetail))
      ensures KeywordOf(words[0]) == Comment && !old(nonCommentFound) ==>
        res == Ok(false) && header == old(header).(comments := old(header).comments + [RestOf(words, 1)])
        && nonCommentFound == old(nonCommentFound)
      ensures KeywordOf(words[0]) !in {MetaStart, Comment} && !EqualSignFollows(words) ==>
        res == Err(Failure(emFile, EqualSignDetail))
      ensures KeywordOf(words[0]) == CreationDate && EqualSignFollows(words) ==>
        if env.epochOf(RestOf(words, 2)).None? then res == Err(Failure(emFile, CreationDateDetail))
        else res == Ok(false) && header == old(header).(creationDate := RestOf(words, 2)) && nonCommentFound
      ensures KeywordOf(words[0]) == Originator && EqualSignFollows(words) ==>
        res == Ok(false) && header == old(header).(originator := RestOf(words, 2)) && nonCommentFound
      ensures KeywordOf(words[0]) !in {MetaStart, Comment, CreationDate, Originator} && EqualSignFollows(words) ==>
        res == Err(Failure(emFile, NotInHeaderDetail(words[0])))
    {
      var key := KeywordOf(words[0]);
      if key == MetaStart {
        return Ok(true);
      } else if key == Comment {
        if nonCommentFound {
          return Err(Failure(emFile, CommentDetail));
        }
        header := header.(comments := header.comments + [RestOf(words, 1)]);
        return Ok(false);
      }
      if !EqualSignFollows(words) {
        return Err(Failure(emFile, EqualSignDetail));
      }
      var value := RestOf(words, 2);
      if key == CreationDate {
        if env.epochOf(value).None? {
          return Err(Failure(emFile, CreationDateDetail));
        }
        header := header.(creationDate := value);
        nonCommentFound := true;
        return Ok(false);
      } else if key == Originator {
        header := header.(originator := value);
        nonCommentFound := true;
        return Ok(false);
      }
      return Err(Failure(emFile, NotInHeaderDetail(words[0])));
    }

    /** META_STOP of a meta-data block: one new segment, numbered by the
        count so far, receives every collected pair (each must be accepted)
        and the data size of a segment; the pairs are cleared and a data
        block begins. */
    method CloseMetaBlock(env: Env) returns (res: Result<Mode>)
      requires Valid(env.segmentDataSize)
      modifies this
      ensures emFile == old(emFile) && header == old(header) && covarianceMetaMap == old(covarianceMetaMap)
      ensures isInitialized == old(isInitialized)
      ensures !AllAccepted(old(metaMap), env.metaAccepted) ==>
        var k := FirstRefused(old(metaMap), env.metaAccepted);
        res == Err(Failure(emFile, InvalidPairDetail(k, old(metaMap)[k])))
      ensures AllAccepted(old(metaMap), env.metaAccepted) ==>
        && res == Ok(InData)
        && segments == old(segments) + [Segment(old(numSegments), old(metaMap), [""], [], [], [])]
        && numSegments == old(numSegments) + 1 && metaMap == map[]
        && dataSize == env.segmentDataSize && !nonCommentFound
        && Valid(env.segmentDataSize)
    {
      nonCommentFound := false;
      var segment := Segment(numSegments, map[], [], [], [], []);
      numSegments := numSegments + 1;
      dataSize := env.segmentDataSize;
      segments := segments + [segment];
      if !AllAccepted(metaMap, env.metaAccepted) {
        var k := FindRefusedPair(metaMap, env.metaAccepted);
        return Err(Failure(emFile, InvalidPairDetail(k, metaMap[k])));
      }
      segments := segments[|segments| - 1 := segment.(meta := metaMap, metaComments := [""])];
      metaMap := map[];
      return Ok(InData);
    }

    /** One non-blank line of a meta-data block. */
    method ReadMetaLine(words: seq<string>, env: Env) returns (res: Result<Mode>)
      requires words != [] && Valid(env.segmentDataSize)
      modifies this
      ensures emFile == old(emFile) && header == old(header) && covarianceMetaMap == old(covarianceMetaMap)
      ensures isInitialized == old(isInitialized)
      ensures res.Ok? ==> Valid(env.segmentDataSize)
      ensures KeywordOf(words[0]) == MetaStop && AllAccepted(old(metaMap), env.metaAccepted) ==>
        res == Ok(InData) && segments == old(segments) + [Segment(old(numSegments), old(metaMap), [""], [], [], [])]
        && metaMap == map[] && dataSize == env.segmentDataSize
      ensures KeywordOf(words[0]) == MetaStop && !AllAccepted(old(metaMap), env.metaAccepted) ==> res.Err?
      ensures KeywordOf(words[0]) == MetaStart ==> res == Err(Failure(emFile, MissingMetaStopDetail))
      ensures KeywordOf(words[0]) in {CovarianceStart, CovarianceStop} ==> res.Err?
      ensures KeywordOf(words[0]) !in {MetaStop, MetaStart, CovarianceStart, CovarianceStop} ==>
        res.Ok? ==> res.value == InMeta && |segments| == |old(segments)|
    {
      var key := KeywordOf(words[0]);
      if key == MetaStop {
        res := CloseMetaBlock(env);
        return;
      } else if key == MetaStart {
        return Err(Failure(emFile, MissingMetaStopDetail));
      } else if key == CovarianceStart || key == CovarianceStop {
        return Err(Failure(emFile, CovarianceInMetaDetail(Upper(words[0]))));
      }
      res := ReadMetaEntry(words, env);
    }

    /** A comment or a "keyword = value" line of a meta-data block: the
        comment goes to the last segment (the key COMMENT is entered once),
        and a pair is entered under its upper-cased keyword unless that
        keyword is already there. */
    method ReadMetaEntry(words: seq<string>, env: Env) returns (res: Result<Mode>)
      requires words != [] && Valid(env.segmentDataSize)
      modifies this
      ensures emFile == old(emFile) && header == old(header) && covarianceMetaMap == old(covarianceMetaMap)
      ensures isInitialized == old(isInitialized) && numSegments == old(numSegments) && dataSize == old(dataSize)
      ensures res.Ok? ==> res.value == InMeta && Valid(env.segmentDataSize)
      ensures KeywordOf(words[0]) == Comment && old(nonCommentFound) ==> res == Err(Failure(emFile, CommentDetail))
      ensures KeywordOf(words[0]) == Comment && !old(nonCommentFound) ==>
        res.Ok? && segments == AddMetaComment(old(segments), RestOf(words, 1))
        && metaMap == InsertIfAbsent(old(metaMap), "COMMENT", "")
      ensures KeywordOf(words[0]) != Comment && !EqualSignFollows(words) ==> res == Err(Failure(emFile, EqualSignDetail))
      ensures KeywordOf(words[0]) != Comment && EqualSignFollows(words) ==>
        && res.Ok? && segments == old(segments) && nonCommentFound
        && metaMap == InsertIfAbsent(old(metaMap), Upper(words[0]), RestOf(words, 2))
    {
      if KeywordOf(words[0]) == Comment {
        if nonCommentFound {
          return Err(Failure(emFile, CommentDetail));
        }
        segments := AddMetaComment(segments, RestOf(words, 1));
        metaMap := InsertIfAbsent(metaMap, "COMMENT", "");
        return Ok(InMeta);
      }
      if !EqualSignFollows(words) {
        return Err(Failure(emFile, EqualSignDetail));
      }
      nonCommentFound := true;
      metaMap := InsertIfAbsent(metaMap, Upper(words[0]), RestOf(words, 2));
      return Ok(InMeta);
    }

    /** An ephemeris line: the epoch and the values, appended to the last
        segment; the data size may drop to 6. */
    method ReadEphemerisLine(words: seq<string>, env: Env) returns (res: Result<Mode>)
      requires words != [] && Valid(env.segmentDataSize) && |segments| > 0
      requires dataSize == env.segmentDataSize || dataSize == 6
      modifies this
      ensures emFile == old(emFile) && header == old(header) && covarianceMetaMap == old(covarianceMetaMap)
      ensures isInitialized == old(isInitialized) && metaMap == old(metaMap) && numSegments == old(numSegments)
      ensures nonCommentFound
      ensures env.epochOf(words[0]).None? ==> res.Err?
      ensures env.epochOf(words[0]).Some? && DataValues(words, old(dataSize), env.realOf).Err? ==>
        res == Err(Failure(emFile, MissingDataDetail))
      ensures env.epochOf(words[0]).Some? && DataValues(words, old(dataSize), env.realOf).Ok? ==>
        var (values, size) := DataValues(words, old(dataSize), env.realOf).value;
        && res == Ok(InData) && dataSize == size
        && segments == AddDataRecord(old(segments), DataRecord(env.epochOf(words[0]).value, values))
      ensures res.Ok? ==> Valid(env.segmentDataSize) && (dataSize == env.segmentDataSize || dataSize == 6)
    {
      nonCommentFound := true;
      var epochVal := env.epochOf(words[0]);
      if epochVal.None? {
        return Err(EpochFailure(words[0]));
      }
      var values := ReadDataValues(words, dataSize, env.realOf);
      if values.Err? {
        return Err(Failure(emFile, values.msg));
      }
      dataSize := values.value.1;
      segments := AddDataRecord(segments, DataRecord(epochVal.value, values.value.0));
      return Ok(InData);
    }

    /** One non-blank line of a data block. */
    method ReadDataLine(words: seq<string>, env: Env) returns (res: Result<Mode>)
      requires words != [] && Valid(env.segmentDataSize) && |segments| > 0
      requires dataSize == env.segmentDataSize || dataSize == 6
      modifies this
      ensures emFile == old(emFile) && header == old(header) && covarianceMetaMap == old(covarianceMetaMap)
      ensures isInitialized == old(isInitialized) && metaMap == old(metaMap) && numSegments == old(numSegments)
      ensures res.Ok? ==> Valid(env.segmentDataSize) && (dataSize == env.segmentDataSize || dataSize == 6)
      ensures KeywordOf(words[0]) == MetaStop ==> res == Err(Failure(emFile, MissingMetaStartDetail))
      ensures KeywordOf(words[0]) == CovarianceStop ==> res == Err(Failure(emFile, MissingCovarianceStartDetail))
      ensures KeywordOf(words[0]) == MetaStart ==> res == Ok(InMeta) && !nonCommentFound && segments == old(segments)
      ensures KeywordOf(words[0]) == CovarianceStart ==>
        res == Ok(InCovarianceMeta) && !nonCommentFound && segments == old(segments)
      ensures KeywordOf(words[0]) == Comment && old(nonCommentFound) ==> res == Err(Failure(emFile, CommentDetail))
      ensures KeywordOf(words[0]) == Comment && !old(nonCommentFound) ==>
        res == Ok(InData) && segments == AddDataComment(old(segments), RestOf(words, 1))
      ensures KeywordOf(words[0]) !in {MetaStop, CovarianceStop, MetaStart, CovarianceStart, Comment} ==>
        nonCommentFound && (res.Ok? ==> res.value == InData && |segments| == |old(segments)|)
    {
      var key := KeywordOf(words[0]);
      if key == MetaStop {
        return Err(Failure(emFile, MissingMetaStartDetail));
      } else if key == CovarianceStop {
        return Err(Failure(emFile, MissingCovarianceStartDetail));
      } else if key == MetaStart {
        nonCommentFound := false;
        return Ok(InMeta);
      } else if key == CovarianceStart {
        nonCommentFound := false;
        return Ok(InCovarianceMeta);
      } else if key == Comment {
        if nonCommentFound {
          return Err(Failure(emFile, CommentDetail));
        }
        segments := AddDataComment(segments, RestOf(words, 1));
        return Ok(InData);
      }
      res := ReadEphemerisLine(words, env);
    }

    /** One non-blank line of the meta part of a covariance block: a
        comment (only before the first pair), a "keyword = value" pair, or
        the first row of a matrix, which is read again as a row. */
    method ReadCovarianceMetaLine(words: seq<string>, scan: Scan) returns (res: Result<Scan>)
      requires words != [] && ScanValid(scan)
      modifies this
      ensures emFile == old(emFile) && header == old(header) && segments == old(segments)
      ensures isInitialized == old(isInitialized) && metaMap == old(metaMap) && numSegments == old(numSegments)
      ensures dataSize == old(dataSize)
      ensures res.Ok? ==> ScanValid(res.value)
      ensures KeywordOf(words[0]) == Comment && old(nonCommentFound) ==> res == Err(Failure(emFile, CovarianceCommentDetail))
      ensures KeywordOf(words[0]) == Comment && !old(nonCommentFound) ==>
        res == Ok(scan.(covComment := RestOf(words, 1), reuse := false)) && covarianceMetaMap == old(covarianceMetaMap)
      ensures KeywordOf(words[0]) != Comment && EqualSignFollows(words) ==>
        res == Ok(scan.(reuse := false)) && nonCommentFound
        && covarianceMetaMap == old(covarianceMetaMap)[Upper(words[0]) := RestOf(words, 2)]
      ensures KeywordOf(words[0]) != Comment && !EqualSignFollows(words) ==>
        res == Ok(scan.(mode := InCovarianceData, covRowIndex := 0, idx := 0, reuse := true))
        && covarianceMetaMap == old(covarianceMetaMap)
    {
      if KeywordOf(words[0]) == Comment {
        if nonCommentFound {
          return Err(Failure(emFile, CovarianceCommentDetail));
        }
        return Ok(scan.(covComment := RestOf(words, 1), reuse := false));
      }
      if EqualSignFollows(words) {
        nonCommentFound := true;
        covarianceMetaMap := covarianceMetaMap[Upper(words[0]) := RestOf(words, 2)];
        return Ok(scan.(reuse := false));
      }
      return Ok(scan.(mode := InCovarianceData, covRowIndex := 0, idx := 0, reuse := true));
    }

    /** One non-blank line of a covariance matrix: COVARIANCE_STOP ends the
        block; otherwise row r carries r + 1 reals, and the sixth row
        completes a 21-value record for the last segment, with the epoch and
        frame of the covariance pairs and the pending comment. */
    method ReadCovarianceDataLine(words: seq<string>, scan: Scan, env: Env) returns (res: Result<Scan>)
      requires words != [] && ScanValid(scan) && scan.mode == InCovarianceData
      requires Valid(env.segmentDataSize) && |segments| > 0
      modifies this
      ensures emFile == old(emFile) && header == old(header) && numSegments == old(numSegments)
      ensures isInitialized == old(isInitialized) && metaMap == old(metaMap) && dataSize == old(dataSize)
      ensures res.Ok? ==> ScanValid(res.value) && Valid(env.segmentDataSize) && |segments| == |old(segments)|
      ensures res.Ok? ==> !res.value.reuse && res.value.mode != InMeta && res.value.mode != InData
      ensures KeywordOf(words[0]) == CovarianceStop ==>
        res == Ok(scan.(mode := AfterCovariance, reuse := false)) && !nonCommentFound && segments == old(segments)
      ensures KeywordOf(words[0]) != CovarianceStop && RowValues(words, scan.covRowIndex + 1, env.realOf).Err? ==> res.Err?
      ensures KeywordOf(words[0]) != CovarianceStop && RowValues(words, scan.covRowIndex + 1, env.realOf).Ok? && scan.covRowIndex < 5 ==>
        && res == Ok(scan.(covRowIndex := scan.covRowIndex + 1, idx := scan.idx + scan.covRowIndex + 1, reuse := false,
                           covValue := WriteAt(scan.covValue, scan.idx, RowValues(words, scan.covRowIndex + 1, env.realOf).value)))
        && segments == old(segments)
      ensures KeywordOf(words[0]) != CovarianceStop && RowValues(words, scan.covRowIndex + 1, env.realOf).Ok? && scan.covRowIndex == 5 ==>
        var epochStr := Lookup(old(covarianceMetaMap), "EPOCH");
        var values := WriteAt(scan.covValue, scan.idx, RowValues(words, 6, env.realOf).value);
        if env.epochOf(epochStr).None? then res.Err?
        else
          && res == Ok(scan.(mode := InCovarianceMeta, covRowIndex := 0, idx := 0, covComment := "", reuse := false, covValue := values))
          && segments == AddCovarianceRecord(old(segments),
               CovarianceRecord(env.epochOf(epochStr).value, Lookup(old(covarianceMetaMap), "COV_REF_FRAME"), scan.covComment, values))
    {
      if KeywordOf(words[0]) == CovarianceStop {
        nonCommentFound := false;
        return Ok(scan.(mode := AfterCovariance, reuse := false));
      }
      var row := ReadCovarianceRow(words, scan.covRowIndex, scan.idx, scan.covValue, env.realOf);
      if row.Err? {
        return Err(Failure(emFile, row.msg));
      }
      var next := scan.(covRowIndex := scan.covRowIndex + 1, idx := scan.idx + scan.covRowIndex + 1,
                        covValue := row.value, reuse := false);
      if next.covRowIndex < 6 {
        RowFitsTriangle(next.covRowIndex);
        return Ok(next);
      }
      res := CompleteCovarianceRecord(next, env);
    }

    /** After the sixth row: the record of the 21 values, with the epoch and
        frame of the covariance pairs (looking them up enters them, empty,
        when absent) and the pending comment, is added to the last segment,
        and the next covariance block's pairs may follow. */
    method CompleteCovarianceRecord(scan: Scan, env: Env) returns (res: Result<Scan>)
      requires |scan.covValue| == 21 && Valid(env.segmentDataSize) && |segments| > 0
      modifies this
      ensures emFile == old(emFile) && header == old(header) && numSegments == old(numSegments)
      ensures isInitialized == old(isInitialized) && metaMap == old(metaMap) && dataSize == old(dataSize)
      ensures nonCommentFound == old(nonCommentFound)
      ensures res.Ok? ==> Valid(env.segmentDataSize) && |segments| == |old(segments)|
      ensures
        var epochStr := Lookup(old(covarianceMetaMap), "EPOCH");
        if env.epochOf(epochStr).None? then res.Err?
        else
          && res == Ok(scan.(mode := InCovarianceMeta, covRowIndex := 0, idx := 0, covComment := ""))
          && segments == AddCovarianceRecord(old(segments),
               CovarianceRecord(env.epochOf(epochStr).value, Lookup(old(covarianceMetaMap), "COV_REF_FRAME"),
                                scan.covComment, scan.covValue))
    {
      var frame := Lookup(covarianceMetaMap, "COV_REF_FRAME");
      var epochStr := Lookup(covarianceMetaMap, "EPOCH");
      covarianceMetaMap := covarianceMetaMap["COV_REF_FRAME" := frame]["EPOCH" := epochStr];
      var ep := env.epochOf(epochStr);
      if ep.None? {
        return Err(EpochFailure(epochStr));
      }
      segments := AddCovarianceRecord(segments, CovarianceRecord(ep.value, frame, scan.covComment, scan.covValue));
      return Ok(scan.(mode := InCovarianceMeta, covRowIndex := 0, idx := 0, covComment := ""));
    }

    /** The header loop: blank lines are skipped and each other line is
        read as a header line until META_START; returns the index of the
        line after it. */
    method ReadHeader(lines: seq<seq<string>>, env: Env) returns (res: Result<nat>)
      modifies this
      ensures emFile == old(emFile) && segments == old(segments) && numSegments == old(numSegments)
      ensures metaMap == old(metaMap) && covarianceMetaMap == old(covarianceMetaMap) && dataSize == old(dataSize)
      ensures isInitialized == old(isInitialized) && header.version == old(header.version)
      ensures res.Ok? ==> 2 <= res.value <= |lines| && lines[res.value - 1] != [] && KeywordOf(lines[res.value - 1][0]) == MetaStart
      ensures (forall k :: 1 <= k < |lines| ==> lines[k] == [] || KeywordOf(lines[k][0]) != MetaStart) ==> res.Err?
    {
      var readingMeta := false;
      var i := 1;
      while !readingMeta && i < |lines|
        invariant 1 <= i
        invariant !readingMeta ==> i <= |lines| || |lines| <= 1
        invariant readingMeta ==> 2 <= i <= |lines| && lines[i - 1] != [] && KeywordOf(lines[i - 1][0]) == MetaStart
        invariant emFile == old(emFile) && segments == old(segments) && numSegments == old(numSegments)
        invariant metaMap == old(metaMap) && covarianceMetaMap == old(covarianceMetaMap) && dataSize == old(dataSize)
        invariant isInitialized == old(isInitialized) && header.version == old(header.version)
        decreases |lines| - i, !readingMeta
      {
        var words := lines[i];
        i := i + 1;
        if words == [] {
          continue;
        }
        var r := ReadHeaderLine(words, env);
        if r.Err? {
          return Err(r.msg);
        }
        readingMeta := r.value;
      }
      if !readingMeta {
        return Err(Failure(emFile, MetaStartNotFoundDetail));
      }
      return Ok(i);
    }

    /** A non-blank line in the block the scan is in. COVARIANCE_STOP
        clears every block flag, so from there on no block takes a line
        and each one is skipped to the end of the file. */
    method ReadBlockLine(words: seq<string>, scan: Scan, env: Env) returns (res: Result<Scan>)
      requires words != [] && ScanValid(scan) && Valid(env.segmentDataSize) && !scan.reuse
      requires scan.mode != InMeta ==> |segments| > 0
      requires scan.mode == InData ==> dataSize == env.segmentDataSize || dataSize == 6
      modifies this
      ensures emFile == old(emFile) && header == old(header) && isInitialized == old(isInitialized)
      ensures res.Ok? ==> ScanValid(res.value) && Valid(env.segmentDataSize) && |segments| >= |old(segments)|
      ensures res.Ok? && res.value.mode != InMeta ==> |segments| > 0
      ensures res.Ok? && res.value.mode == InData ==> dataSize == env.segmentDataSize || dataSize == 6
      ensures res.Ok? && res.value.reuse ==> scan.mode == InCovarianceMeta && res.value.mode == InCovarianceData
      ensures scan.mode == AfterCovariance ==>
        res == Ok(scan) && segments == old(segments) && nonCommentFound == old(nonCommentFound)
    {
      match scan.mode {
        case InMeta =>
          var r := ReadMetaLine(words, env);
          if r.Err? {
            return Err(r.msg);
          }
          return Ok(scan.(mode := r.value));
        case InData =>
          var r := ReadDataLine(words, env);
          if r.Err? {
            return Err(r.msg);
          }
          return Ok(scan.(mode := r.value));
        case InCovarianceMeta =>
          res := ReadCovarianceMetaLine(words, scan);
        case InCovarianceData =>
          res := ReadCovarianceDataLine(words, scan, env);
        case AfterCovariance =>
          return Ok(scan);
      }
    }

    /** The block loop, from the line after the header: each non-blank line
        goes to the method of the block it is in, to the end of the file.
        Returns where reading stopped. */
    method ReadBlocks(lines: seq<seq<string>>, start: nat, env: Env) returns (res: Result<nat>)
      requires 1 <= start <= |lines| && Valid(env.segmentDataSize)
      modifies this
      ensures emFile == old(emFile) && header == old(header) && isInitialized == old(isInitialized)
      ensures res.Ok? ==> Valid(env.segmentDataSize) && |segments| >= |old(segments)|
      ensures res.Ok? ==> res.value == |lines|
    {
      nonCommentFound := false;
      var scan := Scan(InMeta, 6, 0, seq(21, _ => 0.0), "", false);
      var words: seq<string> := [];
      var i := start;
      while i < |lines|
        invariant start <= i <= |lines|
        invariant ScanValid(scan) && Valid(env.segmentDataSize) && |segments| >= |old(segments)|
        invariant scan.mode != InMeta ==> |segments| > 0
        invariant scan.mode == InData ==> dataSize == env.segmentDataSize || dataSize == 6
        invariant scan.reuse ==> words != []
        invariant scan.reuse ==> scan.mode == InCovarianceData
        invariant emFile == old(emFile) && header == old(header) && isInitialized == old(isInitialized)
        decreases 2 * (|lines| - i) + (if scan.reuse then 1 else 0)
      {
        if !scan.reuse {
          words := lines[i];
          i := i + 1;
          if words == [] {
            continue;
          }
        } else {
          scan := scan.(reuse := false);
        }
        var r := ReadBlockLine(words, scan, env);
        if r.Err? {
          return Err(r.msg);
        }
        scan := r.value;
      }
      return Ok(i);
    }

    /** ParseFile: nothing to do once initialised, false when the file
        cannot be opened; otherwise the version line, the header up to
        META_START, the blocks, and a check that nothing but blank lines
        follows where the blocks end. The block loop only ends at the end
        of the file, so that check never finds a line. */
    method ParseFile(lines: seq<seq<string>>, fileOpened: bool, env: Env) returns (res: Result<bool>)
      requires Valid(env.segmentDataSize)
      modifies this
      ensures old(isInitialized) ==> res == Ok(true) && segments == old(segments) && header == old(header)
      ensures !old(isInitialized) && !fileOpened ==> res == Ok(false) && segments == old(segments) && header == old(header)
      ensures !old(isInitialized) && fileOpened && VersionLine(FirstLine(lines), emFile, env.testing).Err? ==> res.Err?
      ensures !old(isInitialized) && fileOpened && res == Ok(true) ==>
        && VersionLine(FirstLine(lines), emFile, env.testing).Ok?
        && header.version == VersionLine(FirstLine(lines), emFile, env.testing).value
        && exists k :: 1 <= k < |lines| && lines[k] != [] && KeywordOf(lines[k][0]) == MetaStart
      ensures res.Ok? ==> Valid(env.segmentDataSize) && |segments| >= |old(segments)|
      ensures emFile == old(emFile)
    {
      if isInitialized {
        return Ok(true);
      }
      if !fileOpened {
        return Ok(false);
      }
      var version := VersionLine(FirstLine(lines), emFile, env.testing);
      if version.Err? {
        return Err(version.msg);
      }
      header := header.(version := version.value);
      var afterHeader := ReadHeader(lines, env);
      if afterHeader.Err? {
        return Err(afterHeader.msg);
      }
      ghost var metaLine := afterHeader.value - 1;
      var stopped := ReadBlocks(lines, afterHeader.value, env);
      if stopped.Err? {
        return Err(stopped.msg);
      }
      var trailing := CheckTrailingLines(lines, stopped.value, None);
      if trailing.Fail? {
        return Err(Failure(emFile, trailing.msg));
      }
      return Ok(true);
    }
  }

  /** Where reading of the blocks stopped, only blank lines may follow; a
      line to be read again is checked too unless the file has ended. */
  predicate OnlyBlankLinesFollow(lines: seq<seq<string>>, i: nat, pending: Option<seq<string>>)
  {
    && !(pending.Some? && pending.value != [] && i < |lines|)
    && forall k :: i <= k < |lines| ==> lines[k] == []
  }

  /** The loop that makes sure nothing follows the end of the last segment. */
  method CheckTrailingLines(lines: seq<seq<string>>, i: nat, pending: Option<seq<string>>) returns (res: Outcome)
    requires i <= |lines|
    ensures res == Pass <==> OnlyBlankLinesFollow(lines, i, pending)
  {
    var reuse := pending.Some? && pending.value != [];
    var words := if pending.Some? then pending.value else [];
    var j := i;
    while j < |lines|
      invariant i <= j <= |lines|
      invariant reuse ==> pending.Some? && words == pending.value && words != [] && j == i
      invariant !reuse ==> !(pending.Some? && pending.value != []) && forall k :: i <= k < j ==> lines[k] == []
      decreases |lines| - j, reuse
    {
      if !reuse {
        words := lines[j];
        j := j + 1;
        if words == [] {
          continue;
        }
      } else {
        reuse := false;
      }
      return Fail(LineNotAllowedDetail(words));
    }
    return Pass;
  }

  /** The first line of the file; an empty file reads as one blank line. */
  function FirstLine(lines: seq<seq<string>>): seq<string>
  {
    if |lines| > 0 then lines[0] else []
  }
}
