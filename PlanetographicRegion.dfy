/** The planetographic region: a closed boundary on a body given by lists
    of latitudes and longitudes (or a file of them), the splitting of the
    text it is read from, the checks on its corner list, and the crossing
    count that decides whether a point lies inside it
    (src/base/solarsys/PlanetographicRegion.cpp).

    The rotations of the corners to the point's meridian, the ellipsoid
    conversion and the removal of hidden corners are floating-point
    geometry; where GMAT uses their results the model takes them as
    inputs. */
module PlanetographicRegionModel {
  import opened Common

  // ---------------------------------------------------------------------
  // Splitting text at delimiters

  /** The index of the first character of s that is a delimiter, or |s|. */
  function FirstDelim(s: string, delims: string): (k: nat)
    ensures k <= |s|
    ensures k < |s| ==> s[k] in delims
    ensures forall i :: 0 <= i < k ==> s[i] !in delims
  {
    if s == [] then 0 else if s[0] in delims then 0 else 1 + FirstDelim(s[1..], delims)
  }

  /** The first delimiter is the only index the three properties above
      allow. */
  lemma FirstDelimUnique(s: string, delims: string, k: nat)
    requires k <= |s| && (k < |s| ==> s[k] in delims)
    requires forall i :: 0 <= i < k ==> s[i] !in delims
    ensures FirstDelim(s, delims) == k
  {
  }

  /** The pieces of s between delimiters, in order, without empty pieces:
      the text up to the first delimiter when it is not empty, then the
      pieces of the rest. */
  function Pieces(s: string, delims: string): (r: seq<string>)
    decreases |s|
  {
    var k := FirstDelim(s, delims);
    if k == |s| then (if s == [] then [] else [s])
    else (if k > 0 then [s[..k]] else []) + Pieces(s[k + 1..], delims)
  }

  predicate HasNoDelim(s: string, delims: string)
  {
    forall i :: 0 <= i < |s| ==> s[i] !in delims
  }

  /** Every piece is non-empty and holds no delimiter. */
  lemma {:induction false} PiecesWellFormed(s: string, delims: string)
    ensures forall k :: 0 <= k < |Pieces(s, delims)| ==>
      |Pieces(s, delims)[k]| > 0 && HasNoDelim(Pieces(s, delims)[k], delims)
    decreases |s|
  {
    var k := FirstDelim(s, delims);
    if k < |s| {
      PiecesWellFormed(s[k + 1..], delims);
    }
  }

  /** Text without delimiters is one piece, or none when it is empty. */
  lemma PiecesOfPlainText(s: string, delims: string)
    requires HasNoDelim(s, delims)
    ensures Pieces(s, delims) == if s == [] then [] else [s]
  {
    FirstDelimUnique(s, delims, |s|);
  }

  /** Splitting distributes over a delimiter: the pieces of p, a delimiter
      and q are the pieces of p followed by the pieces of q. With the lemma
      above this determines Pieces completely. */
  lemma PiecesSplitAt(p: string, c: char, q: string, delims: string)
    requires c in delims
    ensures Pieces(p + [c] + q, delims) == Pieces(p, delims) + Pieces(q, delims)
  {
    var s := p + [c] + q;
    PiecesSplitAtIndex(s, delims, |p|);
    assert s[..|p|] == p && s[|p| + 1..] == q;
  }

  /** Splitting distributes over the delimiter at index j of s. */
  lemma {:induction false} PiecesSplitAtIndex(s: string, delims: string, j: nat)
    requires j < |s| && s[j] in delims
    ensures Pieces(s, delims) == Pieces(s[..j], delims) + Pieces(s[j + 1..], delims)
    decreases j
  {
    var k := FirstDelim(s, delims);
    if k == j {
      PiecesAtFirst(s, delims, j);
    } else {
      PiecesSplitAtIndex(s[k + 1..], delims, j - k - 1);
      PiecesPastFirst(s, delims, j, k);
    }
  }

  /** The case of PiecesSplitAtIndex where an earlier delimiter k comes
      first, given the split of the text after k. */
  lemma PiecesPastFirst(s: string, delims: string, j: nat, k: nat)
    requires k < j < |s| && s[j] in delims && s[k] in delims
    requires forall i :: 0 <= i < k ==> s[i] !in delims
    requires Pieces(s[k + 1..], delims) ==
      Pieces(s[k + 1..][..j - k - 1], delims) + Pieces(s[k + 1..][j - k..], delims)
    ensures Pieces(s, delims) == Pieces(s[..j], delims) + Pieces(s[j + 1..], delims)
  {
    var t, j' := s[k + 1..], j - k - 1;
    var head: seq<string> := if k > 0 then [s[..k]] else [];
    assert t[..j'] == s[k + 1..j] && t[j' + 1..] == s[j + 1..];
    PiecesAt(s, delims, k);
    PiecesAt(s[..j], delims, k);
    assert s[..j][..k] == s[..k] && s[..j][k + 1..] == s[k + 1..j];
    ConcatRegroup(Pieces(s, delims), head, Pieces(t, delims),
                  Pieces(s[k + 1..j], delims), Pieces(s[j + 1..], delims), Pieces(s[..j], delims));
  }

  /** The case of PiecesSplitAtIndex where j is the first delimiter. */
  lemma PiecesAtFirst(s: string, delims: string, j: nat)
    requires j < |s| && s[j] in delims
    requires forall i :: 0 <= i < j ==> s[i] !in delims
    ensures Pieces(s, delims) == Pieces(s[..j], delims) + Pieces(s[j + 1..], delims)
  {
    PiecesAt(s, delims, j);
    PiecesOfPlainText(s[..j], delims);
  }

  lemma ConcatRegroup<T>(whole: seq<T>, head: seq<T>, tail: seq<T>, left: seq<T>, right: seq<T>, front: seq<T>)
    requires whole == head + tail && tail == left + right && front == head + left
    ensures whole == front + right
  {
  }

  /** Pieces unfolded at a known first delimiter k. */
  lemma PiecesAt(s: string, delims: string, k: nat)
    requires k < |s| && s[k] in delims
    requires forall i :: 0 <= i < k ==> s[i] !in delims
    ensures Pieces(s, delims) == (if k > 0 then [s[..k]] else []) + Pieces(s[k + 1..], delims)
  {
    FirstDelimUnique(s, delims, k);
  }

  /** Delimiters that do not occur in s do not change its pieces. */
  lemma {:induction false} PiecesIgnoreAbsent(s: string, d1: string, d2: string)
    requires HasNoDelim(s, d1)
    ensures Pieces(s, d1 + d2) == Pieces(s, d2)
    decreases |s|
  {
    var k := FirstDelim(s, d2);
    FirstDelimUnique(s, d1 + d2, k);
    if k < |s| {
      var head: seq<string> := if k > 0 then [s[..k]] else [];
      assert Pieces(s, d1 + d2) == head + Pieces(s[k + 1..], d1 + d2);
      assert Pieces(s, d2) == head + Pieces(s[k + 1..], d2);
      PiecesIgnoreAbsent(s[k + 1..], d1, d2);
    }
  }

  /** The pieces of each string of xs in turn, concatenated. */
  function FlatPieces(xs: seq<string>, delims: string): (r: seq<string>)
  {
    if xs == [] then [] else FlatPieces(xs[..|xs| - 1], delims) + Pieces(xs[|xs| - 1], delims)
  }

  lemma {:induction false} FlatPiecesAppend(xs: seq<string>, ys: seq<string>, delims: string)
    ensures FlatPieces(xs + ys, delims) == FlatPieces(xs, delims) + FlatPieces(ys, delims)
    decreases |ys|
  {
    if ys == [] {
      assert xs + ys == xs;
    } else {
      var init, last := ys[..|ys| - 1], ys[|ys| - 1];
      assert (xs + ys)[..|xs + ys| - 1] == xs + init;
      assert FlatPieces(xs + ys, delims) == FlatPieces(xs + init, delims) + Pieces(last, delims);
      assert FlatPieces(ys, delims) == FlatPieces(init, delims) + Pieces(last, delims);
      FlatPiecesAppend(xs, init, delims);
    }
  }

  /** Splitting at a first set of delimiters and then splitting each piece
      at a second set gives the pieces for both sets together. */
  lemma {:induction false} PiecesCompose(s: string, d1: string, d2: string)
    ensures FlatPieces(Pieces(s, d1), d2) == Pieces(s, d1 + d2)
    decreases |s|
  {
    var k := FirstDelim(s, d1);
    if k == |s| {
      PiecesIgnoreAbsent(s, d1, d2);
      if s != [] {
        assert FlatPieces([s], d2) == FlatPieces([], d2) + Pieces(s, d2);
      }
    } else {
      PiecesCompose(s[k + 1..], d1, d2);
      ComposePastFirst(s, d1, d2, k);
    }
  }

  /** The step of PiecesCompose at the first delimiter k of the first set,
      given the result for the text after it. */
  lemma ComposePastFirst(s: string, d1: string, d2: string, k: nat)
    requires k < |s| && s[k] in d1
    requires forall i :: 0 <= i < k ==> s[i] !in d1
    requires FlatPieces(Pieces(s[k + 1..], d1), d2) == Pieces(s[k + 1..], d1 + d2)
    ensures FlatPieces(Pieces(s, d1), d2) == Pieces(s, d1 + d2)
  {
    var p, q := s[..k], s[k + 1..];
    var head: seq<string> := if k > 0 then [p] else [];
    var rest := Pieces(q, d1);
    assert Pieces(s, d1) == head + rest by {
      PiecesAt(s, d1, k);
    }
    assert FlatPieces(head + rest, d2) == FlatPieces(head, d2) + FlatPieces(rest, d2) by {
      FlatPiecesAppend(head, rest, d2);
    }
    assert FlatPieces(head, d2) == Pieces(p, d1 + d2) by {
      FlatOfPlainHead(p, d1, d2);
    }
    assert Pieces(s, d1 + d2) == Pieces(p, d1 + d2) + Pieces(q, d1 + d2) by {
      PiecesSplitAtIndex(s, d1 + d2, k);
    }
  }

  /** The first piece, split at the second set, gives the pieces for both
      sets when it holds none of the first. */
  lemma FlatOfPlainHead(p: string, d1: string, d2: string)
    requires HasNoDelim(p, d1)
    ensures FlatPieces(if |p| > 0 then [p] else [], d2) == Pieces(p, d1 + d2)
  {
    PiecesIgnoreAbsent(p, d1, d2);
    if |p| > 0 {
      assert FlatPieces([p], d2) == FlatPieces([], d2) + Pieces(p, d2);
    }
  }

  /** Parse(input, delimiter): the loop over `remaining` that cuts off the
      text before each delimiter and keeps it when it is not empty. */
  method ParseAtChar(input: string, delimiter: char) returns (parts: seq<string>)
    ensures parts == Pieces(input, [delimiter])
  {
    parts := [];
    if |input| == 0 {
      return;
    }
    var remaining := input;
    while FirstDelim(remaining, [delimiter]) < |remaining|
      invariant parts + Pieces(remaining, [delimiter]) == Pieces(input, [delimiter])
      decreases |remaining|
    {
      var index := FirstDelim(remaining, [delimiter]);
      if index > 0 {
        parts := parts + [remaining[..index]];
      }
      remaining := remaining[index + 1..];
    }
    if |remaining| > 0 {
      parts := parts + [remaining];
    }
  }

  /** The strings of xs that are not empty, in order. */
  function NonEmptyOnly(xs: seq<string>): (r: seq<string>)
  {
    if xs == [] then []
    else NonEmptyOnly(xs[..|xs| - 1]) + if |xs[|xs| - 1]| > 0 then [xs[|xs| - 1]] else []
  }

  /** Dropping the empty strings keeps a list without empty strings
      as it is. */
  lemma {:induction false} NonEmptyOfWellFormed(xs: seq<string>)
    requires forall k :: 0 <= k < |xs| ==> |xs[k]| > 0
    ensures NonEmptyOnly(xs) == xs
  {
    if xs != [] {
      NonEmptyOfWellFormed(xs[..|xs| - 1]);
    }
  }

  /** The inner loop of Parse(input, delimiters): appends the non-empty
      strings of more. */
  method AppendNonEmpty(parts: seq<string>, more: seq<string>) returns (r: seq<string>)
    ensures r == parts + NonEmptyOnly(more)
  {
    r := parts;
    var j := 0;
    while j < |more|
      invariant 0 <= j <= |more|
      invariant r == parts + NonEmptyOnly(more[..j])
    {
      var thisString := more[j];
      assert more[..j + 1][..j] == more[..j];
      if |thisString| > 0 {
        r := r + [thisString];
      }
      j := j + 1;
    }
    assert more[..j] == more;
  }

  /** Parse(input, delimiters): the whole input for no delimiters, the
      one-character split for one, and otherwise a split at the first half
      of the delimiters whose pieces are split at the second half, keeping
      the non-empty results. */
  method ParseAtAny(input: string, delimiters: string) returns (parts: seq<string>)
    ensures |delimiters| == 0 ==> parts == [input]
    ensures |delimiters| > 0 ==> parts == Pieces(input, delimiters)
    decreases |delimiters|
  {
    parts := [input];
    if |delimiters| == 0 {
      return;
    } else if |delimiters| == 1 {
      parts := ParseAtChar(input, delimiters[0]);
      assert delimiters == [delimiters[0]];
      return;
    }
    var i := |delimiters| / 2;
    var firstDelimiters := delimiters[..i];
    var secondDelimiters := delimiters[i..];
    assert firstDelimiters + secondDelimiters == delimiters;
    var subStrings := ParseAtAny(input, firstDelimiters);
    parts := [];
    var si := 0;
    while si < |subStrings|
      invariant 0 <= si <= |subStrings|
      invariant parts == FlatPieces(subStrings[..si], secondDelimiters)
    {
      var subSubStrings := ParseAtAny(subStrings[si], secondDelimiters);
      NonEmptyOfPieces(subStrings[si], secondDelimiters);
      parts := AppendNonEmpty(parts, subSubStrings);
      FlatPiecesStep(subStrings, si, secondDelimiters);
      si := si + 1;
    }
    assert subStrings[..si] == subStrings;
    assert FlatPieces(subStrings, secondDelimiters) == Pieces(input, delimiters) by {
      PiecesCompose(input, firstDelimiters, secondDelimiters);
    }
  }

  /** Pieces are never empty, so dropping empty strings keeps them all. */
  lemma NonEmptyOfPieces(s: string, delims: string)
    ensures NonEmptyOnly(Pieces(s, delims)) == Pieces(s, delims)
  {
    PiecesWellFormed(s, delims);
    NonEmptyOfWellFormed(Pieces(s, delims));
  }

  lemma FlatPiecesStep(xs: seq<string>, i: nat, delims: string)
    requires i < |xs|
    ensures FlatPieces(xs[..i + 1], delims) == FlatPieces(xs[..i], delims) + Pieces(xs[i], delims)
  {
    assert xs[..i + 1][..i] == xs[..i];
  }

  // ---------------------------------------------------------------------
  // The corner lists

  const DuplicateDefinitionMessage: string :=
    "it is not allowed to have Latitude or Longitude arrays as well as a Filename defined!"
  const LatitudeRangeMessage: string := "The number must be between -90 and 90 Degrees."
  const LongitudeSpanMessage: string := "All longitudes must be within 360 Dg of each other."
  const FileMissingMessage: string := "does not exist."
  const CountMismatchMessage: string :=
    "The number of entries for Latitude must equal the number of entries for Longitude"
  const TooFewMessage: string := "The number of entries for Latitude must be three or greater"
  const PoleToPoleMessage: string := "The longitude of pole-to-pole region boundary cannot change"
  const AntipodeMessage: string :=
    "The path from a point to its antipode is undefined. Please enter an intermediate point"

  /** A new longitude lies less than 360 degrees from every longitude
      already in the list. */
  predicate LongitudeFits(list: seq<real>, value: real)
  {
    forall i :: 0 <= i < |list| ==> value - list[i] < 360.0 && list[i] - value < 360.0
  }

  /** All longitudes of the list lie within 360 degrees of each other. */
  predicate WithinOneTurn(list: seq<real>)
  {
    forall i, j :: 0 <= i < |list| && 0 <= j < |list| ==> list[i] - list[j] < 360.0
  }

  /** Accepting only longitudes that fit keeps the whole list within one
      turn. */
  lemma AppendFittingKeepsTurn(list: seq<real>, value: real)
    requires WithinOneTurn(list) && LongitudeFits(list, value)
    ensures WithinOneTurn(list + [value])
  {
    var l := list + [value];
    forall i, j | 0 <= i < |l| && 0 <= j < |l|
      ensures l[i] - l[j] < 360.0
    {
      if i < |list| && j < |list| {
        assert l[i] == list[i] && l[j] == list[j];
      }
    }
  }

  /** The smallest and the largest longitude of a non-empty list, the scan
      of SetRealParameter. */
  method ExtremeLongitudes(list: seq<real>) returns (minimum: real, maximum: real)
    requires |list| > 0
    ensures minimum in list && maximum in list
    ensures forall i :: 0 <= i < |list| ==> minimum <= list[i] <= maximum
  {
    minimum := list[0];
    maximum := list[0];
    var i := 1;
    while i < |list|
      invariant 1 <= i <= |list|
      invariant minimum in list[..i] && maximum in list[..i]
      invariant forall k :: 0 <= k < i ==> minimum <= list[k] <= maximum
    {
      if list[i] < minimum {
        minimum := list[i];
      }
      if list[i] > maximum {
        maximum := list[i];
      }
      assert list[..i + 1] == list[..i] + [list[i]];
      i := i + 1;
    }
    assert list[..i] == list;
  }

  /** What the loop of CheckLatitudeAndLongitudeList reports about the edge
      from corner i to the next one: a pole-to-pole edge must keep its
      longitude, and an edge may not join a point to its antipode. */
  function EdgeFault(lat: seq<real>, lon: seq<real>, i: nat): Outcome
    requires |lat| == |lon| && i < |lat|
  {
    var next := (i + 1) % |lat|;
    if lat[i] == -lat[next] then
      if (lat[i] == 90.0 || lat[i] == -90.0) && lon[i] != lon[next] then Fail(PoleToPoleMessage)
      else if Abs(lon[next] - lon[i]) == 180.0 then Fail(AntipodeMessage)
      else Pass
    else Pass
  }

  /** The first fault among edges i, i + 1, ..., or Pass. */
  function FirstEdgeFault(lat: seq<real>, lon: seq<real>, i: nat): Outcome
    requires |lat| == |lon| && i <= |lat|
    decreases |lat| - i
  {
    if i == |lat| then Pass
    else if EdgeFault(lat, lon, i).Fail? then EdgeFault(lat, lon, i)
    else FirstEdgeFault(lat, lon, i + 1)
  }

  /** The outcome of CheckLatitudeAndLongitudeList. */
  function CornerListCheck(lat: seq<real>, lon: seq<real>): Outcome
  {
    if |lat| != |lon| then Fail(CountMismatchMessage)
    else if |lat| < 3 then Fail(TooFewMessage)
    else FirstEdgeFault(lat, lon, 0)
  }

  /** The edge from corner i to the next joins a point to its antipode, or
      runs from pole to pole while changing longitude. */
  predicate BadEdge(lat: seq<real>, lon: seq<real>, i: nat)
    requires |lat| == |lon| && i < |lat|
  {
    var next := (i + 1) % |lat|;
    && lat[i] == -lat[next]
    && ((Abs(lat[i]) == 90.0 && lon[i] != lon[next]) || Abs(lon[next] - lon[i]) == 180.0)
  }

  lemma EdgeFaultIsBadEdge(lat: seq<real>, lon: seq<real>, i: nat)
    requires |lat| == |lon| && i < |lat|
    ensures EdgeFault(lat, lon, i) == Pass <==> !BadEdge(lat, lon, i)
  {
  }

  lemma {:induction false} FirstEdgeFaultPasses(lat: seq<real>, lon: seq<real>, i: nat)
    requires |lat| == |lon| && i <= |lat|
    ensures FirstEdgeFault(lat, lon, i) == Pass <==> forall k :: i <= k < |lat| ==> !BadEdge(lat, lon, k)
    decreases |lat| - i
  {
    if i < |lat| {
      EdgeFaultIsBadEdge(lat, lon, i);
      FirstEdgeFaultPasses(lat, lon, i + 1);
    }
  }

  /** A corner list passes exactly when both lists have the same length of
      at least three and no edge is bad. */
  lemma CornerListCheckPasses(lat: seq<real>, lon: seq<real>)
    ensures CornerListCheck(lat, lon) == Pass <==>
      |lat| == |lon| && |lat| >= 3 && forall k :: 0 <= k < |lat| ==> !BadEdge(lat, lon, k)
  {
    if |lat| == |lon| {
      FirstEdgeFaultPasses(lat, lon, 0);
    }
  }

  /** The corner lists and the file name of a region. */
  class PlanetographicRegion {
    var filename: string
    var latitudeList: seq<real>
    var longitudeList: seq<real>

    constructor ()
      ensures filename == [] && latitudeList == [] && longitudeList == []
    {
      filename := [];
      latitudeList := [];
      longitudeList := [];
    }

    /** SetStringParameter for Filename: the name (after conversion to the
        system's form, an input) is stored first; then a missing file and
        corner lists already given are errors. */
    method SetFilename(osName: string, fileFound: bool) returns (res: Outcome)
      modifies this
      ensures filename == osName
      ensures latitudeList == old(latitudeList) && longitudeList == old(longitudeList)
      ensures !fileFound ==> res == Fail(FileMissingMessage)
      ensures fileFound && (|latitudeList| > 0 || |longitudeList| > 0) ==> res == Fail(DuplicateDefinitionMessage)
      ensures fileFound && |latitudeList| == 0 && |longitudeList| == 0 ==> res == Pass
    {
      filename := osName;
      if !fileFound {
        return Fail(FileMissingMessage);
      }
      if |latitudeList| > 0 || |longitudeList| > 0 {
        return Fail(DuplicateDefinitionMessage);
      }
      return Pass;
    }

    /** SetRealParameter for Latitude: refused when a file is named or the
        value is outside [-90, 90]; otherwise appended (the index is not
        used). */
    method SetLatitude(value: real, index: int) returns (res: Result<real>)
      modifies this
      ensures |old(filename)| > 0 ==> res == Err(DuplicateDefinitionMessage)
      ensures |old(filename)| == 0 && (value > 90.0 || value < -90.0) ==> res == Err(LatitudeRangeMessage)
      ensures res.Err? ==> latitudeList == old(latitudeList)
      ensures |old(filename)| == 0 && -90.0 <= value <= 90.0 ==>
        res == Ok(value) && latitudeList == old(latitudeList) + [value]
      ensures longitudeList == old(longitudeList) && filename == old(filename)
    {
      if |filename| > 0 {
        return Err(DuplicateDefinitionMessage);
      }
      if value > 90.0 || value < -90.0 {
        return Err(LatitudeRangeMessage);
      }
      latitudeList := latitudeList + [value];
      return Ok(value);
    }

    /** SetRealParameter for Longitude: refused when a file is named or the
        value lies 360 degrees or more from the smallest or the largest
        longitude so far; otherwise appended. */
    method SetLongitude(value: real, index: int) returns (res: Result<real>)
      modifies this
      ensures |old(filename)| > 0 ==> res == Err(DuplicateDefinitionMessage)
      ensures |old(filename)| == 0 && !LongitudeFits(old(longitudeList), value) ==>
        res == Err(LongitudeSpanMessage)
      ensures res.Err? ==> longitudeList == old(longitudeList)
      ensures |old(filename)| == 0 && LongitudeFits(old(longitudeList), value) ==>
        res == Ok(value) && longitudeList == old(longitudeList) + [value]
      ensures WithinOneTurn(old(longitudeList)) ==> WithinOneTurn(longitudeList)
      ensures latitudeList == old(latitudeList) && filename == old(filename)
    {
      if |filename| > 0 {
        return Err(DuplicateDefinitionMessage);
      }
      if |longitudeList| > 0 {
        var minimum, maximum := ExtremeLongitudes(longitudeList);
        if value - minimum >= 360.0 || maximum - value >= 360.0 {
          return Err(LongitudeSpanMessage);
        }
      }
      if WithinOneTurn(longitudeList) {
        AppendFittingKeepsTurn(longitudeList, value);
      }
      longitudeList := longitudeList + [value];
      return Ok(value);
    }

    /** CheckLatitudeAndLongitudeList: the lists must be equally long with
        at least three corners, and each edge, the last one closing the
        boundary, must not be bad. */
    method CheckLatitudeAndLongitudeList() returns (res: Outcome)
      ensures res == CornerListCheck(latitudeList, longitudeList)
    {
      if |latitudeList| != |longitudeList| {
        return Fail(CountMismatchMessage);
      }
      if |latitudeList| < 3 {
        return Fail(TooFewMessage);
      }
      var lat, lon := latitudeList, longitudeList;
      var i := 0;
      while i < |lat|
        invariant 0 <= i <= |lat|
        invariant FirstEdgeFault(lat, lon, i) == FirstEdgeFault(lat, lon, 0)
      {
        var currentLatitude := lat[i];
        var currentLongitude := lon[i];
        var nextIndex := (i + 1) % |lat|;
        var nextLatitude := lat[nextIndex];
        var nextLongitude := lon[nextIndex];
        if currentLatitude == -nextLatitude {
          if currentLatitude == 90.0 || currentLatitude == -90.0 {
            if currentLongitude != nextLongitude {
              return Fail(PoleToPoleMessage);
            }
          }
          var changeInLongitude := Abs(nextLongitude - currentLongitude);
          if changeInLongitude == 180.0 {
            return Fail(AntipodeMessage);
          }
        }
        i := i + 1;
      }
      return Pass;
    }
  }

  // ---------------------------------------------------------------------
  // Segment intersection and the crossing count

  /** A point of the plane through the body's centre seen from the
      point being tested: its y and z coordinates. */
  datatype Point2 = Point2(y: real, z: real)

  function Sub(u: Point2, v: Point2): Point2 { Point2(u.y - v.y, u.z - v.z) }

  /** The cross product u[0] v[1] - v[0] u[1]. */
  function Cross(u: Point2, v: Point2): real { u.y * v.z - v.y * u.z }

  /** The result of DoLinesIntersect: whether the segments cross, and the
      distance from c to the line through a and b, absent when a and b
      coincide (a division of zero by zero in GMAT). */
  datatype Crossing = Crossing(intersects: bool, distance: Option<real>)

  /** DoLinesIntersect(a, b, c, d): c and d are not strictly on the same
      side of ab, a and b are not strictly on the same side of cd, and b is
      not on the line cd. The square root is a parameter. */
  function DoLinesIntersect(a: Point2, b: Point2, c: Point2, d: Point2, sqrt: real -> real): Crossing
  {
    Crossing(SidesAlternate(Sub(b, a), Sub(c, a), Sub(d, a), Sub(a, c), Sub(b, c), Sub(d, c)),
             LineDistance(Sub(b, a), Sub(c, a), sqrt))
  }

  /** The crossing test on the difference vectors ab, ac, ad, ca, cb, cd. */
  predicate SidesAlternate(ab: Point2, ac: Point2, ad: Point2, ca: Point2, cb: Point2, cd: Point2)
  {
    var acab, adab := Cross(ac, ab), Cross(ad, ab);
    var cacd, cbcd := Cross(ca, cd), Cross(cb, cd);
    acab * adab <= 0.0 && cacd * cbcd <= 0.0 && cbcd != 0.0
  }

  /** |ac x ab| / |ab|, the distance from c to the line through a and b. */
  function LineDistance(ab: Point2, ac: Point2, sqrt: real -> real): Option<real>
  {
    var norm := sqrt(ab.y * ab.y + ab.z * ab.z);
    if norm == 0.0 then None else Some(Abs(Cross(ac, ab) / norm))
  }

  lemma ProductPositive(x: real, y: real)
    requires (x > 0.0 && y > 0.0) || (x < 0.0 && y < 0.0)
    ensures x * y > 0.0
  {
  }

  /** When c and d lie strictly on the same side of the line ab the
      segments do not cross. */
  lemma SameSideOfAbNoCrossing(a: Point2, b: Point2, c: Point2, d: Point2, sqrt: real -> real)
    requires var ab := Sub(b, a);
      (Cross(Sub(c, a), ab) > 0.0 && Cross(Sub(d, a), ab) > 0.0) ||
      (Cross(Sub(c, a), ab) < 0.0 && Cross(Sub(d, a), ab) < 0.0)
    ensures !DoLinesIntersect(a, b, c, d, sqrt).intersects
  {
    ProductPositive(Cross(Sub(c, a), Sub(b, a)), Cross(Sub(d, a), Sub(b, a)));
  }

  /** When a and b lie strictly on the same side of the line cd the
      segments do not cross. */
  lemma SameSideOfCdNoCrossing(a: Point2, b: Point2, c: Point2, d: Point2, sqrt: real -> real)
    requires var cd := Sub(d, c);
      (Cross(Sub(a, c), cd) > 0.0 && Cross(Sub(b, c), cd) > 0.0) ||
      (Cross(Sub(a, c), cd) < 0.0 && Cross(Sub(b, c), cd) < 0.0)
    ensures !DoLinesIntersect(a, b, c, d, sqrt).intersects
  {
    ProductPositive(Cross(Sub(a, c), Sub(d, c)), Cross(Sub(b, c), Sub(d, c)));
  }

  /** An edge ending on the line cd is not counted, so a boundary corner on
      the test segment is not counted twice. */
  lemma EndOnLineNotCounted(a: Point2, b: Point2, c: Point2, d: Point2, sqrt: real -> real)
    requires Cross(Sub(b, c), Sub(d, c)) == 0.0
    ensures !DoLinesIntersect(a, b, c, d, sqrt).intersects
  {
  }

  function Shift(p: Point2, t: Point2): Point2 { Point2(p.y + t.y, p.z + t.z) }

  /** Moving all four points by the same offset changes nothing. */
  lemma IntersectionIgnoresShift(a: Point2, b: Point2, c: Point2, d: Point2, t: Point2, sqrt: real -> real)
    ensures DoLinesIntersect(Shift(a, t), Shift(b, t), Shift(c, t), Shift(d, t), sqrt)
            == DoLinesIntersect(a, b, c, d, sqrt)
  {
    var a', b', c', d' := Shift(a, t), Shift(b, t), Shift(c, t), Shift(d, t);
    assert Sub(b', a') == Sub(b, a) && Sub(c', a') == Sub(c, a) && Sub(d', a') == Sub(d, a);
    assert Sub(a', c') == Sub(a, c) && Sub(b', c') == Sub(b, c) && Sub(d', c') == Sub(d, c);
  }

  /** Segments that cross properly, each with its endpoints strictly on
      opposite sides of the other's line, are reported as crossing. */
  lemma ProperCrossingIntersects(a: Point2, b: Point2, c: Point2, d: Point2, sqrt: real -> real)
    requires var ab := Sub(b, a);
      (Cross(Sub(c, a), ab) > 0.0 && Cross(Sub(d, a), ab) < 0.0) ||
      (Cross(Sub(c, a), ab) < 0.0 && Cross(Sub(d, a), ab) > 0.0)
    requires var cd := Sub(d, c);
      (Cross(Sub(a, c), cd) > 0.0 && Cross(Sub(b, c), cd) < 0.0) ||
      (Cross(Sub(a, c), cd) < 0.0 && Cross(Sub(b, c), cd) > 0.0)
    ensures DoLinesIntersect(a, b, c, d, sqrt).intersects
  {
  }

  /** The edge of the region from corner i to the next one, tested against
      the segment from the origin to far. */
  function EdgeCrossing(region: seq<Point2>, far: Point2, i: nat, sqrt: real -> real): Crossing
    requires i < |region|
  {
    DoLinesIntersect(region[i], region[(i + 1) % |region|], Point2(0.0, 0.0), far, sqrt)
  }

  /** The number of edges among the first k that cross. */
  function CrossingCount(region: seq<Point2>, far: Point2, k: nat, sqrt: real -> real): (n: nat)
    requires k <= |region|
    ensures n <= k
  {
    if k == 0 then 0
    else CrossingCount(region, far, k - 1, sqrt) + if EdgeCrossing(region, far, k - 1, sqrt).intersects then 1 else 0
  }

  /** The least of start and the distances of the first k edges. */
  function LeastDistance(region: seq<Point2>, far: Point2, k: nat, start: real, sqrt: real -> real): real
    requires k <= |region|
  {
    if k == 0 then start
    else
      var m := LeastDistance(region, far, k - 1, start, sqrt);
      var d := EdgeCrossing(region, far, k - 1, sqrt).distance;
      if d.Some? && d.value < m then d.value else m
  }

  /** The least distance is at most the start value and at most every
      edge's distance, and it is one of them. */
  lemma {:induction false} LeastDistanceIsLeast(region: seq<Point2>, far: Point2, k: nat, start: real,
                                                sqrt: real -> real)
    requires k <= |region|
    ensures LeastDistance(region, far, k, start, sqrt) <= start
    ensures forall i :: 0 <= i < k && EdgeCrossing(region, far, i, sqrt).distance.Some? ==>
      LeastDistance(region, far, k, start, sqrt) <= EdgeCrossing(region, far, i, sqrt).distance.value
    ensures LeastDistance(region, far, k, start, sqrt) == start ||
      exists i :: 0 <= i < k && EdgeCrossing(region, far, i, sqrt).distance == Some(LeastDistance(region, far, k, start, sqrt))
  {
    if k > 0 {
      LeastDistanceIsLeast(region, far, k - 1, start, sqrt);
    }
  }

  /** The number of rotated corners on the point's side of the body. */
  function VisibleCount(xs: seq<real>): (n: nat)
    ensures n <= |xs|
  {
    if xs == [] then 0 else VisibleCount(xs[..|xs| - 1]) + if xs[|xs| - 1] > 0.0 then 1 else 0
  }

  /** The decision of isWithin once the corners are rotated so that the
      point is at the origin: rotatedX are the rotated corners' x
      coordinates, region the visible boundary in the y-z plane. No
      visible corner means outside at the body's radius; otherwise the
      point is inside exactly when the segment from it to radius + 100
      crosses the boundary an odd number of times, and then the least
      distance is negated. */
  method WithinFromCrossings(rotatedX: seq<real>, region: seq<Point2>, radius: real, sqrt: real -> real)
    returns (within: bool, minDistance: real)
    ensures VisibleCount(rotatedX) == 0 ==> !within && minDistance == radius
    ensures VisibleCount(rotatedX) > 0 ==>
      var far := Point2(0.0, radius + 100.0);
      var m := LeastDistance(region, far, |region|, radius, sqrt);
      && (within <==> CrossingCount(region, far, |region|, sqrt) % 2 == 1)
      && minDistance == (if within then -m else m)
  {
    var sumSatelliteCanSee := 0;
    var k := 0;
    while k < |rotatedX|
      invariant 0 <= k <= |rotatedX|
      invariant sumSatelliteCanSee == VisibleCount(rotatedX[..k])
    {
      if rotatedX[k] > 0.0 {
        sumSatelliteCanSee := sumSatelliteCanSee + 1;
      }
      assert rotatedX[..k + 1][..k] == rotatedX[..k];
      k := k + 1;
    }
    assert rotatedX[..k] == rotatedX;
    minDistance := radius;
    if sumSatelliteCanSee == 0 {
      return false, minDistance;
    }
    var far := Point2(0.0, radius + 100.0);
    var intersections := 0;
    var i := 0;
    while i < |region|
      invariant 0 <= i <= |region|
      invariant intersections == CrossingCount(region, far, i, sqrt)
      invariant minDistance == LeastDistance(region, far, i, radius, sqrt)
    {
      var edge := DoLinesIntersect(region[i], region[(i + 1) % |region|], Point2(0.0, 0.0), far, sqrt);
      if edge.intersects {
        intersections := intersections + 1;
      }
      if edge.distance.Some? && edge.distance.value < minDistance {
        minDistance := edge.distance.value;
      }
      i := i + 1;
    }
    if intersections % 2 == 1 {
      minDistance := -minDistance;
      return true, minDistance;
    }
    return false, minDistance;
  }

  // ---------------------------------------------------------------------
  // Parse errors of real values

  /** HandleRealParseError: always an error, whose message is the context
      followed by the description of the error code of
      GmatStringUtil::IsValidReal (codes -1 to -9); any other code leaves
      the context alone. */
  function HandleRealParseError(errorCode: int, message: string): (r: Outcome)
    ensures r.Fail?
    ensures message <= r.msg
    ensures |r.msg| > |message| <==> -9 <= errorCode <= -1
  {
    var reason := ParseErrorReason(errorCode);
    assert (message + reason)[..|message|] == message;
    Fail(message + reason)
  }

  /** The descriptions of the error codes -1, -2, ..., -9 of
      GmatStringUtil::IsValidReal, in that order. */
  const ParseErrorReasons: seq<string> := [
    "is blank",
    "is blank",
    "contains numbers with multiple dots or invalid scientific notation",
    "doesn't begin with  + , -, ., or a digit",
    "has multiple E or e in scientific notation",
    "has multiple + or - in scientific notation",
    "has multiple dots",
    "contains non-numeric characters other than E or e",
    "has missing numbers after + or -sign"]

  /** The description of an error code, empty for a code IsValidReal does
      not return. */
  function ParseErrorReason(errorCode: int): (reason: string)
    ensures reason != [] <==> -9 <= errorCode <= -1
  {
    if -9 <= errorCode <= -1 then
      var reason := ParseErrorReasons[-errorCode - 1];
      assert reason[0] == ParseErrorReasons[-errorCode - 1][0];
      reason
    else ""
  }
}
