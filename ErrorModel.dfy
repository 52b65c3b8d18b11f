/** The measurement error model of the estimation plugin: noise sigma, a
    constant bias and per-pass biases, the solve-for list, and the
    covariance block of the biases
    (plugins/EstimationPlugin/src/base/errormodel/ErrorModel.cpp). */
module ErrorModelModel {
  import opened Common
  import opened Matrices
  import opened CovarianceModel

  // ---------------------------------------------------------------------
  // Parameter ids and measurement types

  /** The ids of the Bias and PassBiases parameters, as offsets from
      GmatBaseParamCount (the order of the parameter table). */
  const BiasId: int := 2
  const PassBiasesId: int := 4

  const RangeTypes: set<string> := {"GPS_PosVec", "Range", "SN_Range", "BRTS_Range", "Range_Skin"}
  const DopplerTypes: set<string> :=
    {"DSN_TCP", "SN_Doppler", "SN_Doppler_Rtn", "SN_DOWD", "BRTS_Doppler"}
  const AngleTypes: set<string> :=
    {"Azimuth", "Elevation", "XEast", "YNorth", "XSouth", "YEast", "RightAscension", "Declination"}

  /** GetUnit: the unit a measurement of the given type is expressed in. */
  function GetUnit(measType: string): (unit: string)
    ensures measType in RangeTypes ==> unit == "km"
    ensures measType == "DSN_SeqRange" ==> unit == "RU"
    ensures measType in DopplerTypes ==> unit == "Hz"
    ensures measType == "RangeRate" ==> unit == "km/s"
    ensures measType in AngleTypes ==> unit == "deg"
    ensures unit == "" <==>
              measType !in RangeTypes + DopplerTypes + AngleTypes + {"DSN_SeqRange", "RangeRate"}
  {
    if measType == "GPS_PosVec" then "km"
    else if measType == "DSN_SeqRange" then "RU"
    else if measType == "DSN_TCP" then "Hz"
    else if measType == "Range" then "km"
    else if measType == "SN_Range" then "km"
    else if measType == "BRTS_Range" then "km"
    else if measType == "RangeRate" then "km/s"
    else if measType == "SN_Doppler" then "Hz"
    else if measType == "SN_Doppler_Rtn" then "Hz"
    else if measType == "SN_DOWD" then "Hz"
    else if measType == "BRTS_Doppler" then "Hz"
    else if measType == "Azimuth" then "deg"
    else if measType == "Elevation" then "deg"
    else if measType == "XEast" then "deg"
    else if measType == "YNorth" then "deg"
    else if measType == "XSouth" then "deg"
    else if measType == "YEast" then "deg"
    else if measType == "RightAscension" then "deg"
    else if measType == "Declination" then "deg"
    else if measType == "Range_Skin" then "km"
    else ""
  }

  /** The types offered only when GMAT runs in TESTING mode. */
  const TestingOnlyTypes: seq<string> :=
    ["RightAscension", "Declination", "BRTS_Range", "BRTS_Doppler", "SN_Doppler_Rtn", "SN_DOWD"]

  /** GetAllAvailableTypes; testing stands for the run mode being TESTING. */
  function AvailableTypes(testing: bool): (types: seq<string>)
    ensures |types| == if testing then 20 else 14
  {
    var base := ["DSN_SeqRange", "DSN_TCP", "GPS_PosVec", "Range", "Range_Skin", "RangeRate",
                 "Azimuth", "Elevation", "XEast", "YNorth", "XSouth", "YEast",
                 "SN_Range", "SN_Doppler"];
    if testing then base + TestingOnlyTypes else base
  }

  /** A type is offered outside TESTING mode exactly when it is offered in
      TESTING mode and is not one of the testing-only types. */
  lemma TestingOnlyTypesNeedTesting(t: string)
    ensures t in AvailableTypes(false) <==> t in AvailableTypes(true) && t !in TestingOnlyTypes
    ensures t in TestingOnlyTypes ==> t in AvailableTypes(true)
  {
    var base := AvailableTypes(false);
    assert AvailableTypes(true) == base + TestingOnlyTypes;
    if t in AvailableTypes(true) && t !in TestingOnlyTypes {
      var i :| 0 <= i < |AvailableTypes(true)| && AvailableTypes(true)[i] == t;
      assert i < |base|;
      assert base[i] == t;
    }
    if t in TestingOnlyTypes {
      var i :| 0 <= i < |TestingOnlyTypes| && TestingOnlyTypes[i] == t;
      assert AvailableTypes(true)[|base| + i] == t;
    }
  }

  /** Every type a model can be set to has a unit. */
  lemma AvailableTypesHaveUnits(testing: bool, t: string)
    requires t in AvailableTypes(testing)
    ensures GetUnit(t) != ""
  {
    var types := AvailableTypes(testing);
    var i :| 0 <= i < |types| && types[i] == t;
    if i < 14 {
      assert t == AvailableTypes(false)[i];
    } else {
      assert t == TestingOnlyTypes[i - 14];
    }
  }

  // ---------------------------------------------------------------------
  // Pass lookup

  /** The first j in [i, |s|-1) with s[j] <= t < s[j+1], or the last index
      of s when there is none. */
  function FirstPassFrom(s: seq<real>, t: real, i: nat): (r: nat)
    requires 1 <= |s| && i <= |s| - 1
    ensures i <= r <= |s| - 1
    ensures r < |s| - 1 ==> s[r] <= t < s[r + 1]
    ensures forall j :: i <= j < r && j < |s| - 1 ==> !(s[j] <= t < s[j + 1])
    decreases |s| - 1 - i
  {
    if i == |s| - 1 then i
    else if s[i] <= t < s[i + 1] then i
    else FirstPassFrom(s, t, i + 1)
  }

  /** GetBiasPassNumber's answer for pass start epochs s: pass 0 before the
      second start, else the first pass whose interval holds t, else the
      last pass. */
  function PassNumber(s: seq<real>, t: real): (r: nat)
    requires |s| >= 1
    ensures r < |s|
  {
    if |s| >= 2 && t < s[1] then 0 else FirstPassFrom(s, t, 0)
  }

  /** The pass number is 0 before the second start epoch; otherwise it is the
      first pass whose [start, next start) interval holds t, and the last
      pass exactly when no such interval exists. */
  lemma PassNumberMeaning(s: seq<real>, t: real)
    requires |s| >= 1
    ensures |s| >= 2 && t < s[1] ==> PassNumber(s, t) == 0
    ensures (|s| < 2 || s[1] <= t) ==>
              var r := PassNumber(s, t);
              && (r < |s| - 1 ==> s[r] <= t < s[r + 1])
              && (forall j :: 0 <= j < r && j < |s| - 1 ==> !(s[j] <= t < s[j + 1]))
              && (r == |s| - 1 <==> forall j :: 0 <= j < |s| - 1 ==> !(s[j] <= t < s[j + 1]))
  {
  }

  predicate StrictlyIncreasing(s: seq<real>)
  {
    forall i, j :: 0 <= i < j < |s| ==> s[i] < s[j]
  }

  /** With increasing start epochs and t at or after the first start, the
      pass number is the pass that t falls in: its start is at or before t and
      the next start, if any, is after t. */
  lemma {:induction false} PassNumberOnSortedStarts(s: seq<real>, t: real)
    requires |s| >= 1 && StrictlyIncreasing(s) && s[0] <= t
    ensures s[PassNumber(s, t)] <= t
    ensures PassNumber(s, t) + 1 < |s| ==> t < s[PassNumber(s, t) + 1]
  {
    var r := PassNumber(s, t);
    if |s| >= 2 && t < s[1] {
    } else if r == |s| - 1 {
      LastStartBefore(s, t, |s| - 1);
    }
  }

  /** With increasing starts, s[0] <= t and t in no interval [s[j], s[j+1])
      for j < n, t is at or after s[n]. */
  lemma {:induction false} LastStartBefore(s: seq<real>, t: real, n: nat)
    requires n < |s| && StrictlyIncreasing(s) && s[0] <= t
    requires forall j :: 0 <= j < n ==> !(s[j] <= t < s[j + 1])
    ensures s[n] <= t
  {
    if n > 0 {
      LastStartBefore(s, t, n - 1);
      assert !(s[n - 1] <= t < s[n]);
    }
  }

  // ---------------------------------------------------------------------
  // Writing a block of the covariance matrix in place

  /** m with every entry of the dim-by-dim block at (start, start) replaced:
      diag on the block's diagonal, off elsewhere in the block. */
  function WithFilledBlock(m: Matrix, start: nat, dim: nat, diag: real, off: real): (w: Matrix)
    requires IsSquare(m) && start + dim <= |m|
    ensures |w| == |m| && IsSquare(w)
    ensures forall r, c :: 0 <= r < |m| && 0 <= c < |m| ==>
              w[r][c] == if start <= r < start + dim && start <= c < start + dim
                         then (if r == c then diag else off) else m[r][c]
  {
    seq(|m|, r requires 0 <= r < |m| => seq(|m|, c requires 0 <= c < |m| =>
      if start <= r < start + dim && start <= c < start + dim
      then (if r == c then diag else off) else m[r][c]))
  }

  /** m after a BiasSigma change to sigma squared s2: s2 at (0, 0), the Bias
      variance, and at every entry of the block below and right of it, the
      PassBiases block; the Bias/PassBiases cross terms are kept. */
  function WithBiasVariances(m: Matrix, s2: real): (w: Matrix)
    requires IsSquare(m) && |m| >= 1
    ensures |w| == |m| && IsSquare(w)
    ensures forall r, c :: 0 <= r < |m| && 0 <= c < |m| ==>
              w[r][c] == if (r == 0 && c == 0) || (r >= 1 && c >= 1) then s2 else m[r][c]
  {
    WithFilledBlock(m[0 := m[0][0 := s2]], 1, |m| - 1, s2, s2)
  }

  /** The row/column double loop that writes a block. */
  method FillBlock(t: array2<real>, start: nat, dim: nat, diag: real, off: real)
    requires t.Length0 == t.Length1 && start + dim <= t.Length0
    modifies t
    ensures MatrixOf(t) == WithFilledBlock(old(MatrixOf(t)), start, dim, diag, off)
  {
    ghost var m := MatrixOf(t);
    var row := 0;
    while row < dim
      invariant 0 <= row <= dim
      invariant forall r, c :: 0 <= r < t.Length0 && 0 <= c < t.Length1 ==>
                  t[r, c] == if start <= r < start + row && start <= c < start + dim
                             then (if r == c then diag else off) else m[r][c]
    {
      var col := 0;
      while col < dim
        invariant 0 <= col <= dim
        invariant forall r, c :: 0 <= r < t.Length0 && 0 <= c < t.Length1 ==>
                    t[r, c] == if (start <= r < start + row && start <= c < start + dim) ||
                                  (r == start + row && start <= c < start + col)
                               then (if r == c then diag else off) else m[r][c]
      {
        t[start + row, start + col] := if row == col then diag else off;
        col := col + 1;
      }
      row := row + 1;
    }
    MatrixExt(MatrixOf(t), WithFilledBlock(m, start, dim, diag, off), t.Length0, t.Length0);
  }

  /** The copy loop that writes back the dim-by-dim block at (start, start)
      of a saved copy of the matrix. */
  method CopyBackBlock(t: array2<real>, start: nat, dim: nat, table: Matrix)
    requires t.Length0 == t.Length1 && start + dim <= t.Length0
    requires IsSquare(table) && start + dim <= |table|
    modifies t
    ensures forall r, c :: 0 <= r < t.Length0 && 0 <= c < t.Length1 ==>
              t[r, c] == if start <= r < start + dim && start <= c < start + dim
                         then table[r][c] else old(t[r, c])
  {
    var row := 0;
    while row < dim
      invariant 0 <= row <= dim
      invariant forall r, c :: 0 <= r < t.Length0 && 0 <= c < t.Length1 ==>
                  t[r, c] == if start <= r < start + row && start <= c < start + dim
                             then table[r][c] else old(t[r, c])
    {
      var col := 0;
      while col < dim
        invariant 0 <= col <= dim
        invariant forall r, c :: 0 <= r < t.Length0 && 0 <= c < t.Length1 ==>
                    t[r, c] == if (start <= r < start + row && start <= c < start + dim) ||
                                  (r == start + row && start <= c < start + col)
                               then table[r][c] else old(t[r, c])
      {
        t[start + row, start + col] := table[start + row][start + col];
        col := col + 1;
      }
      row := row + 1;
    }
  }

  /** The first half of the constructor's covariance set-up: the Bias
      element, with variance s2. */
  method NewBiasElement(owner: string, s2: real) returns (cov: Covariance)
    ensures fresh(cov) && fresh(cov.theCovariance) && cov.Valid()
    ensures cov.elementNames == ["Bias"] && cov.elementIDs == [BiasId]
    ensures cov.elementOwners == [owner] && cov.elementSizes == [1]
    ensures cov.Entries() == [[s2]]
  {
    cov := new Covariance();
    var added := cov.AddCovarianceElement("Bias", owner, BiasId, 1);
    var loc := cov.SubMatrixStartById(BiasId);
    assert cov.elementSizes[..0] == [];
    var put := cov.Put(loc, loc, s2);
    MatrixExt(cov.Entries(), [[s2]], 1, 1);
  }

  /** The second half: the PassBiases element of the given size with s2 on
      the diagonal of its block. */
  method AddPassBiasesElement(cov: Covariance, owner: string, s2: real, passCount: nat)
    requires cov.Valid() && passCount == 1
    requires cov.elementNames == ["Bias"] && cov.elementIDs == [BiasId]
    requires cov.elementOwners == [owner] && cov.elementSizes == [1]
    requires cov.Entries() == [[s2]]
    modifies cov
    ensures cov.Valid() && fresh(cov.theCovariance)
    ensures cov.elementNames == ["Bias", "PassBiases"] && cov.elementIDs == [BiasId, PassBiasesId]
    ensures cov.elementOwners == [owner, owner] && cov.elementSizes == [1, passCount]
    ensures cov.Entries() == [[s2, 0.0], [0.0, s2]]
  {
    var added := cov.AddCovarianceElement("PassBiases", owner, PassBiasesId, passCount);
    assert cov.elementSizes == [1, 1];
    ghost var grown := cov.Entries();
    assert grown == Grown([[s2]], 1, 1);
    assert grown[0][0] == s2 && grown[0][1] == 0.0 && grown[1][0] == 0.0;
    var loc := cov.SubMatrixStartById(PassBiasesId);
    assert cov.elementSizes[..1] == [1] && loc == 1;
    var dim := cov.ElementSizeById(PassBiasesId);
    FillBlock(cov.theCovariance, loc, dim, s2, 0.0);
    MatrixExt(cov.Entries(), [[s2, 0.0], [0.0, s2]], 2, 2);
  }

  // ---------------------------------------------------------------------
  // The error model object

  const DefaultNoiseSigma: real := 103.0
  const DefaultBiasSigma: real := 1.0e70

  /** The growing half of SetPassBias: the PassBiases element gains one row
      and column, its old entries kept and the new ones zero. */
  method GrowPassBiases(covariance: Covariance, name: string, newdim: nat)
    requires covariance.Valid() && newdim >= 2
    requires covariance.elementNames == ["Bias", "PassBiases"]
    requires covariance.elementIDs == [BiasId, PassBiasesId]
    requires covariance.elementOwners == [name, name]
    requires covariance.elementSizes == [1, newdim - 1]
    requires covariance.dimension == newdim
    modifies covariance, covariance.theCovariance
    ensures covariance.Valid()
    ensures covariance.elementNames == ["Bias", "PassBiases"]
    ensures covariance.elementIDs == [BiasId, PassBiasesId]
    ensures covariance.elementOwners == [name, name]
    ensures covariance.elementSizes == [1, newdim]
    ensures covariance.dimension == newdim + 1
    ensures covariance.Entries() == Grown(old(covariance.Entries()), newdim, 1)
  {
    ghost var before := covariance.Entries();
    var locationStart := covariance.SubMatrixStartById(PassBiasesId);
    assert covariance.elementSizes[..1] == [1];
    var dim := covariance.ElementSizeById(PassBiasesId);
    var table := covariance.CopyBlock(0, covariance.dimension);
    assert table == before by {
      MatrixExt(table, before, |before|, |before|);
    }
    assert LastIndex(covariance.elementIDs, PassBiasesId) == 1;
    assert FirstIndex(covariance.elementNames, "PassBiases") == 1;
    assert LastIndex(covariance.elementNames, "PassBiases") == 1;
    var resized := covariance.SetElementSizeById(PassBiasesId, newdim);
    assert covariance.elementSizes == [1, newdim];
    CopyBackBlock(covariance.theCovariance, locationStart, dim, table);
    forall r, c | 0 <= r < |before| + 1 && 0 <= c < |before| + 1
      ensures covariance.Entries()[r][c] == Grown(before, |before|, 1)[r][c]
    {
      GrownEntries(before, |before|, 1, r, c);
    }
    MatrixExt(covariance.Entries(), Grown(before, |before|, 1), |before| + 1, |before| + 1);
  }

  /** The covariance half of SetBiasSigma: the Bias variance and the whole
      PassBiases block (diagonal and off-diagonal) become s2. */
  method WriteBiasVariances(covariance: Covariance, name: string, s2: real)
    requires covariance.Valid() && covariance.dimension >= 2
    requires covariance.elementNames == ["Bias", "PassBiases"]
    requires covariance.elementIDs == [BiasId, PassBiasesId]
    requires covariance.elementOwners == [name, name]
    requires covariance.elementSizes == [1, covariance.dimension - 1]
    modifies covariance.theCovariance
    ensures covariance.Valid()
    ensures covariance.Entries() == WithBiasVariances(old(covariance.Entries()), s2)
  {
    var locationStart := covariance.SubMatrixStartById(BiasId);
    assert covariance.elementSizes[..0] == [];
    ghost var e0 := covariance.Entries();
    var put := covariance.Put(locationStart, locationStart, s2);
    ghost var e1 := covariance.Entries();
    assert e1 == e0[0 := e0[0][0 := s2]];
    locationStart := covariance.SubMatrixStartById(PassBiasesId);
    assert covariance.elementSizes[..1] == [1] && [1][..0] == [];
    assert locationStart == 1;
    if locationStart >= 0 {
      var dim := covariance.ElementSizeById(PassBiasesId);
      assert dim == |e0| - 1;
      FillBlock(covariance.theCovariance, locationStart, dim, s2, s2);
      assert covariance.Entries() == WithFilledBlock(e1, 1, |e0| - 1, s2, s2);
    }
  }

  class ErrorModel {
    const name: string
    var measurementType: string
    var noiseSigma: real
    var bias: real
    var biasSigma: real
    var passBiases: seq<real>
    var passBiasStartEpoches: seq<real>
    var solveforNames: seq<string>
    var isInitialized: bool
    /** The covariance of the Bias and PassBiases parameters, owned by the model. */
    const covariance: Covariance

    /** Two covariance elements: Bias (size 1) and PassBiases (one row per
        pass bias), both owned by this model. */
    ghost predicate Valid()
      reads this, covariance
    {
      && covariance.Valid()
      && covariance.elementNames == ["Bias", "PassBiases"]
      && covariance.elementIDs == [BiasId, PassBiasesId]
      && covariance.elementOwners == [name, name]
      && covariance.elementSizes == [1, |passBiases|]
      && covariance.dimension == 1 + |passBiases|
      && |passBiases| >= 1
    }

    /** The default model: DSN_SeqRange, noise sigma 103, bias 0 with sigma
        1e70, one pass bias equal to the bias starting at epoch 0, and the
        bias variances on the diagonal of a 2-by-2 covariance. */
    constructor (name: string)
      ensures Valid() && fresh(covariance)
      ensures this.name == name
      ensures measurementType == "DSN_SeqRange" && noiseSigma == DefaultNoiseSigma
      ensures bias == 0.0 && biasSigma == DefaultBiasSigma
      ensures passBiases == [bias] && passBiasStartEpoches == [0.0]
      ensures solveforNames == [] && !isInitialized
      ensures covariance.Entries() ==
                [[DefaultBiasSigma * DefaultBiasSigma, 0.0], [0.0, DefaultBiasSigma * DefaultBiasSigma]]
    {
      this.name := name;
      measurementType := "DSN_SeqRange";
      noiseSigma := DefaultNoiseSigma;
      bias := 0.0;
      biasSigma := DefaultBiasSigma;
      solveforNames := [];
      isInitialized := false;
      passBiases := [0.0];
      passBiasStartEpoches := [0.0];
      var cov := NewBiasElement(name, DefaultBiasSigma * DefaultBiasSigma);
      AddPassBiasesElement(cov, name, DefaultBiasSigma * DefaultBiasSigma, 1);
      covariance := cov;
    }

    /** Initialize: a GPS_PosVec model may not solve for Bias or PassBiases;
        a model that is already initialized stays so. */
    method Initialize() returns (res: Result<bool>)
      modifies this
      ensures old(isInitialized) ==> res == Ok(true) && isInitialized
      ensures !old(isInitialized) ==>
                (res.Err? <==> measurementType == "GPS_PosVec" &&
                               ("Bias" in solveforNames || "PassBiases" in solveforNames))
      ensures res.Ok? ==> res.value && isInitialized
      ensures res.Err? ==> isInitialized == old(isInitialized)
      ensures measurementType == old(measurementType) && solveforNames == old(solveforNames)
      ensures passBiases == old(passBiases) && noiseSigma == old(noiseSigma)
    {
      if isInitialized {
        return Ok(true);
      }
      if measurementType == "GPS_PosVec" {
        if "Bias" in solveforNames {
          return Err("The GPS_PosVec measurement type does not allow 'Bias' as a solve-for.\n");
        }
        if "PassBiases" in solveforNames {
          return Err("The GPS_PosVec measurement type does not allow 'PassBiases' as a solve-for.\n");
        }
      }
      isInitialized := true;
      res := Ok(true);
    }

    /** SetStringParameter(SOLVEFORS, value): "{}" clears the list; only Bias
        and PassBiases are accepted, each once, and never both together. */
    method SetSolveFor(value: string) returns (res: Result<bool>)
      modifies this
      ensures IsEmptyList(value) ==> res == Ok(true) && solveforNames == []
      ensures !IsEmptyList(value) ==>
                (res.Ok? <==> (value == "Bias" || value == "PassBiases") &&
                              value !in old(solveforNames) &&
                              !("Bias" in old(solveforNames) + [value] &&
                                "PassBiases" in old(solveforNames) + [value]))
      ensures !IsEmptyList(value) && res.Ok? ==> res.value && solveforNames == old(solveforNames) + [value]
      ensures res.Err? ==> solveforNames == old(solveforNames)
      ensures measurementType == old(measurementType) && passBiases == old(passBiases)
      ensures isInitialized == old(isInitialized)
    {
      if IsEmptyList(value) {
        solveforNames := [];
        return Ok(true);
      }
      if value != "Bias" && value != "PassBiases" {
        return Err("Error: '" + value + "' is an invalid value. " + name +
                   ".SolveFors parameter only accepts Bias as a solve-for.\n");
      }
      ghost var before := solveforNames;
      if value !in solveforNames {
        solveforNames := solveforNames + [value];
      } else {
        return Err("Error: '" + value + "' set to " + name + ".SolveFors parameter is replicated.\n");
      }
      var hasBias := "Bias" in solveforNames;
      var hasPassBiases := "PassBiases" in solveforNames;
      if hasBias && hasPassBiases {
        solveforNames := solveforNames[..|solveforNames| - 1];
        assert solveforNames == before;
        return Err("Error: '" + value + "' set to " + name +
                   ".SolveFors parameter cannot solve for both Bias and PassBiases at the same time.\n");
      }
      res := Ok(true);
    }

    /** SetStringParameter(TYPE, value): only an available type is accepted. */
    method SetType(value: string, testing: bool) returns (res: Result<bool>)
      modifies this
      ensures res.Ok? <==> value in AvailableTypes(testing)
      ensures res.Ok? ==> res.value && measurementType == value
      ensures res.Err? ==> measurementType == old(measurementType)
      ensures solveforNames == old(solveforNames) && passBiases == old(passBiases)
    {
      var typesList := AvailableTypes(testing);
      var found := false;
      var i := 0;
      while i < |typesList|
        invariant 0 <= i <= |typesList|
        invariant found <==> value in typesList[..i]
      {
        if typesList[i] == value {
          found := true;
          assert typesList[..i + 1] == typesList[..i] + [value];
          break;
        }
        assert typesList[..i + 1] == typesList[..i] + [typesList[i]];
        i := i + 1;
      }
      assert !found ==> typesList[..i] == typesList;
      if !found {
        return Err("Error: '" + value + "' set to " + name +
                   ".Type parameter is an invalid measurement type.\n");
      }
      measurementType := value;
      res := Ok(true);
    }

    /** SetRealParameter(NOISE_SIGMA, value): the sigma must be positive. */
    method SetNoiseSigma(value: real) returns (res: Result<real>)
      modifies this
      ensures res.Ok? <==> value > 0.0
      ensures res.Ok? ==> res.value == value && noiseSigma == value
      ensures res.Err? ==> noiseSigma == old(noiseSigma)
      ensures bias == old(bias) && biasSigma == old(biasSigma) && passBiases == old(passBiases)
    {
      if value <= 0.0 {
        return Err("Error: value set to " + name +
                   ".NoiseSigma is a non positive number. It has to be a positive number.\n");
      }
      noiseSigma := value;
      res := Ok(noiseSigma);
    }

    /** SetRealParameter(BIAS, value): any value is accepted; the pass biases
        are not changed. */
    method SetBias(value: real) returns (res: real)
      modifies this
      ensures res == value && bias == value
      ensures noiseSigma == old(noiseSigma) && biasSigma == old(biasSigma)
      ensures passBiases == old(passBiases)
    {
      bias := value;
      res := bias;
    }

    /** SetRealParameter(BIAS_SIGMA, value): the sigma must be positive; then
        its square becomes the Bias variance and every entry, on and off the
        diagonal, of the PassBiases block. */
    method SetBiasSigma(value: real) returns (res: Result<real>)
      requires Valid()
      modifies this, covariance.theCovariance
      ensures Valid()
      ensures res.Ok? <==> value > 0.0
      ensures res.Err? ==> biasSigma == old(biasSigma) && covariance.Entries() == old(covariance.Entries())
      ensures res.Ok? ==>
                && res.value == value && biasSigma == value
                && covariance.Entries() == WithBiasVariances(old(covariance.Entries()), value * value)
      ensures passBiases == old(passBiases) && bias == old(bias) && noiseSigma == old(noiseSigma)
    {
      if value <= 0.0 {
        return Err("Error: value set to " + name +
                   ".BiasSigma is a nonpositive number. It has to be a positive number.\n");
      }
      ghost var e0 := covariance.Entries();
      biasSigma := value;
      var biasSigma2 := biasSigma * biasSigma;
      assert covariance.Entries() == e0;
      WriteBiasVariances(covariance, name, biasSigma2);
      assert biasSigma2 == value * value;
      res := Ok(biasSigma);
    }

    /** GetRealParameter(PASS_BIASES, index): bounds-checked. */
    function PassBiasAt(index: int): (v: Result<real>)
      reads this
      ensures v.Ok? <==> 0 <= index < |passBiases|
      ensures v.Ok? ==> v.value == passBiases[index]
    {
      if index < 0 || index >= |passBiases| then Err("Error: Index is out of bound in ErrorModel::GetRealParameter() function.\n")
      else Ok(passBiases[index])
    }

    /** SetRealParameter(PASS_BIASES, value, index): overwrite in range,
        append at index == size (growing the PassBiases covariance block by a
        zero row and column at its end and keeping every old entry), and
        refuse any other index. */
    method SetPassBias(value: real, index: int) returns (res: Result<real>)
      requires Valid()
      modifies this, covariance, covariance.theCovariance
      ensures Valid()
      ensures res.Ok? <==> 0 <= index <= old(|passBiases|)
      ensures res.Ok? ==> res.value == value
      ensures res.Ok? && index < old(|passBiases|) ==>
                passBiases == old(passBiases)[index := value] &&
                covariance.Entries() == old(covariance.Entries())
      ensures res.Ok? && index == old(|passBiases|) ==>
                passBiases == old(passBiases) + [value] &&
                covariance.Entries() == Grown(old(covariance.Entries()), old(covariance.dimension), 1)
      ensures res.Err? ==> passBiases == old(passBiases) && covariance.Entries() == old(covariance.Entries())
      ensures bias == old(bias) && biasSigma == old(biasSigma) && solveforNames == old(solveforNames)
      ensures passBiasStartEpoches == old(passBiasStartEpoches)
    {
      if index < 0 || index > |passBiases| {
        return Err("Error: Index is out of bound in ErrorModel::GetRealParameter() function.\n");
      }
      if index < |passBiases| {
        passBiases := passBiases[index := value];
        return Ok(value);
      }
      passBiases := passBiases + [value];
      GrowPassBiases(covariance, name, |passBiases|);
      res := Ok(value);
    }

    /** SetPassBiasStartEpoches: replace the list of pass start epochs. */
    method SetPassBiasStartEpoches(startEpoches: seq<real>)
      modifies this
      ensures passBiasStartEpoches == startEpoches
      ensures passBiases == old(passBiases)
    {
      passBiasStartEpoches := startEpoches;
    }

    /** GetBiasPassNumber(t); with no start epoch at all GMAT's loop
        bound underflows, which is an error here. */
    method GetBiasPassNumber(currentTime: real) returns (res: Result<int>)
      ensures res.Ok? <==> |passBiasStartEpoches| >= 1
      ensures res.Ok? ==> res.value == PassNumber(passBiasStartEpoches, currentTime)
    {
      var starts := passBiasStartEpoches;
      if |starts| == 0 {
        return Err("no pass start epoch");
      }
      var passNum := |starts| - 1;
      var i := 0;
      while i < |starts| - 1
        invariant 0 <= i <= |starts| - 1
        invariant |starts| >= 2 ==> currentTime >= starts[1] || i == 0
        invariant i > 0 ==> FirstPassFrom(starts, currentTime, 0) == FirstPassFrom(starts, currentTime, i)
      {
        if currentTime < starts[1] {
          passNum := 0;
          break;
        } else if starts[i] <= currentTime && currentTime < starts[i + 1] {
          passNum := i;
          break;
        }
        i := i + 1;
      }
      res := Ok(passNum);
    }

    /** GetPassBias(t): the pass bias of the pass t falls in; the vector
        access is bounds-checked. */
    method GetPassBias(currentTime: real) returns (res: Result<real>)
      ensures |passBiasStartEpoches| == 0 ==> res.Err?
      ensures |passBiasStartEpoches| >= 1 ==>
                res == PassBiasAt(PassNumber(passBiasStartEpoches, currentTime))
    {
      var passNum := GetBiasPassNumber(currentTime);
      if passNum.Err? {
        return Err(passNum.msg);
      }
      res := PassBiasAt(passNum.value);
    }
  }
}
