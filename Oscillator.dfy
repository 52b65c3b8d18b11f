/** The oscillator of a transmitter: a frequency given by a polynomial in
    elapsed time, its partial derivatives, and the covariance of the drift and
    of the polynomial coefficients
    (plugins/EstimationPlugin/src/base/hardware/Oscillator.cpp). */
module OscillatorModel {
  import opened Common
  import opened Matrices
  import opened CovarianceModel

  // ---------------------------------------------------------------------
  // The frequency polynomial and its derivatives

  /** Sum of c[k] * t^k over the coefficients (the frequency in MHz). */
  function Poly(c: seq<real>, t: real): real
  {
    if c == [] then 0.0 else Poly(c[..|c| - 1], t) + c[|c| - 1] * Pow(t, |c| - 1)
  }

  /** Sum of k * c[k] * t^(k-1) for k >= 1, before the MHz-to-Hz factor. */
  function DerivSum(c: seq<real>, t: real): real
  {
    if |c| <= 1 then 0.0
    else DerivSum(c[..|c| - 1], t) + ((|c| - 1) as real) * c[|c| - 1] * Pow(t, |c| - 2)
  }

  /** The coefficients of the derivative polynomial: (k+1) * c[k+1]. */
  function FormalDerivative(c: seq<real>): (d: seq<real>)
    ensures |d| == if |c| == 0 then 0 else |c| - 1
    ensures forall k :: 0 <= k < |d| ==> d[k] == ((k + 1) as real) * c[k + 1]
  {
    if |c| <= 1 then [] else seq(|c| - 1, k requires 0 <= k < |c| - 1 => ((k + 1) as real) * c[k + 1])
  }

  /** The derivative polynomial of c extends that of c without its last
      coefficient by one term. */
  lemma FormalDerivativeStep(c: seq<real>)
    requires |c| > 1
    ensures FormalDerivative(c) == FormalDerivative(c[..|c| - 1]) + [((|c| - 1) as real) * c[|c| - 1]]
  {
    var n := |c| - 1;
    var d := FormalDerivative(c);
    var e := FormalDerivative(c[..n]) + [(n as real) * c[n]];
    assert |d| == n == |e|;
    forall k | 0 <= k < n
      ensures d[k] == e[k]
    {
      if k < n - 1 {
        assert c[..n][k + 1] == c[k + 1];
      }
    }
    assert d == e;
    assert (n as real) == ((|c| - 1) as real);
    assert c[..n] == c[..|c| - 1];
    assert (n as real) * c[n] == ((|c| - 1) as real) * c[|c| - 1];
    assert e == FormalDerivative(c[..|c| - 1]) + [((|c| - 1) as real) * c[|c| - 1]];
  }

  /** The drift-derivative sum is the derivative polynomial evaluated at t. */
  lemma {:induction false} DerivSumIsDerivative(c: seq<real>, t: real)
    ensures DerivSum(c, t) == Poly(FormalDerivative(c), t)
    decreases |c|
  {
    if |c| > 1 {
      var n := |c| - 1;
      DerivSumIsDerivative(c[..n], t);
      FormalDerivativeStep(c);
      var d := FormalDerivative(c);
      assert d[..n - 1] == FormalDerivative(c[..n]);
    }
  }

  /** A zero leading coefficient does not change the frequency. */
  lemma {:induction false} PolyZeroExtension(c: seq<real>, t: real)
    ensures Poly(c + [0.0], t) == Poly(c, t)
  {
    assert (c + [0.0])[..|c|] == c;
  }

  /** The default single coefficient is a constant frequency. */
  lemma PolyConstant(f: real, t: real)
    ensures Poly([f], t) == f
  {
    assert [f][..0] == [];
  }

  /** Sum of a[k] * b[k]. */
  function Dot(a: seq<real>, b: seq<real>): real
    requires |a| == |b|
  {
    if a == [] then 0.0 else Dot(a[..|a| - 1], b[..|b| - 1]) + a[|a| - 1] * b[|b| - 1]
  }

  /** The coefficient-derivative vector: entry k is 1e6 * t^k. */
  function CoeffDerivative(n: nat, t: real): (d: seq<real>)
    ensures |d| == n
    ensures forall k :: 0 <= k < n ==> d[k] == 1.0e6 * Pow(t, k)
  {
    seq(n, k requires 0 <= k < n => 1.0e6 * Pow(t, k))
  }

  /** The frequency is linear in the coefficients, and the coefficient
      derivative is its gradient: dotting it with the coefficients gives
      1e6 times the frequency. */
  lemma {:induction false} CoeffDerivativeIsGradient(c: seq<real>, t: real)
    ensures Dot(c, CoeffDerivative(|c|, t)) == 1.0e6 * Poly(c, t)
    decreases |c|
  {
    if c != [] {
      var p := c[..|c| - 1];
      CoeffDerivativeIsGradient(p, t);
      assert CoeffDerivative(|c|, t)[..|c| - 1] == CoeffDerivative(|p|, t);
    }
  }

  // ---------------------------------------------------------------------
  // The covariance elements

  const DriftName := "FrequencyDrift"
  const CoeffsName := "FrequencyPolynomialCoefficients"
  /** Parameter ids as offsets from TransmitterParamCount. */
  const DriftId: int := 0
  const CoeffsId: int := 2

  /** The default sigma, standing for an unknown value. */
  const UnknownSigma: real := 1.0e35

  /** m with entry (i, i) replaced by v. */
  function WithDiagonal(m: Matrix, i: nat, v: real): (w: Matrix)
    requires IsSquare(m) && i < |m|
    ensures |w| == |m| && IsSquare(w)
    ensures forall r, c :: 0 <= r < |m| && 0 <= c < |m| ==>
              w[r][c] == if r == i && c == i then v else m[r][c]
  {
    m[i := m[i][i := v]]
  }

  /** A fresh covariance holding only the drift element, of size 1, with a
      zero entry. */
  method NewDriftCovariance(owner: string) returns (cov: Covariance)
    ensures fresh(cov) && fresh(cov.theCovariance) && cov.Valid()
    ensures cov.elementNames == [DriftName] && cov.elementIDs == [DriftId]
    ensures cov.elementOwners == [owner] && cov.elementSizes == [1]
    ensures cov.dimension == 1 && cov.Entries() == [[0.0]]
  {
    cov := new Covariance();
    var added := cov.AddCovarianceElement(DriftName, owner, DriftId, 1);
    assert cov.Entries() == Grown([], 0, 1);
    MatrixExt(cov.Entries(), [[0.0]], 1, 1);
  }

  /** The first half of the constructor's covariance set-up: the drift and
      coefficient elements, each of size 1, with zero entries. */
  method NewOscillatorCovariance(owner: string) returns (cov: Covariance)
    ensures fresh(cov) && fresh(cov.theCovariance) && cov.Valid()
    ensures cov.elementNames == [DriftName, CoeffsName] && cov.elementIDs == [DriftId, CoeffsId]
    ensures cov.elementOwners == [owner, owner] && cov.elementSizes == [1, 1]
    ensures cov.Entries() == [[0.0, 0.0], [0.0, 0.0]]
  {
    cov := NewDriftCovariance(owner);
    assert CoeffsName != DriftName by {
      assert |CoeffsName| != |DriftName|;
    }
    var added := cov.AddCovarianceElement(CoeffsName, owner, CoeffsId, 1);
    ghost var two := cov.Entries();
    assert two == Grown([[0.0]], 1, 1);
    assert two[0][0] == 0.0 && two[0][1] == 0.0 && two[1][0] == 0.0 && two[1][1] == 0.0;
    MatrixExt(two, [[0.0, 0.0], [0.0, 0.0]], 2, 2);
  }

  /** The drift's variance d2 at the first diagonal entry of a zero
      2-by-2 covariance. */
  method WriteDriftVariance(cov: Covariance, d2: real)
    requires cov.Valid() && cov.elementNames == [DriftName, CoeffsName] && cov.elementSizes == [1, 1]
    requires cov.Entries() == [[0.0, 0.0], [0.0, 0.0]]
    modifies cov.theCovariance
    ensures cov.Valid() && cov.Entries() == [[d2, 0.0], [0.0, 0.0]]
  {
    var start := cov.SubMatrixStartByName(DriftName);
    assert cov.elementSizes[..0] == [];
    var put := cov.Put(start.value, start.value, d2);
    MatrixExt(cov.Entries(), [[d2, 0.0], [0.0, 0.0]], 2, 2);
  }

  /** The second half of the constructor's covariance set-up: the squared
      drift sigma at the drift's diagonal entry, then one squared sigma per
      coefficient on the diagonal of the coefficient block. */
  method WriteInitialVariances(cov: Covariance, driftSigma: real, coeffs: seq<real>, sigmas: seq<real>)
    requires cov.Valid() && cov.elementNames == [DriftName, CoeffsName] && cov.elementSizes == [1, 1]
    requires cov.Entries() == [[0.0, 0.0], [0.0, 0.0]]
    requires |coeffs| == |sigmas| == 1
    modifies cov.theCovariance
    ensures cov.Valid() && cov.elementSizes == [1, 1]
    ensures cov.Entries() == [[driftSigma * driftSigma, 0.0], [0.0, sigmas[0] * sigmas[0]]]
  {
    var d2 := driftSigma * driftSigma;
    WriteDriftVariance(cov, d2);
    ghost var afterDrift := cov.Entries();
    var start := cov.SubMatrixStartByName(CoeffsName);
    assert cov.elementSizes[..1] == [1] && [1][..0] == [];
    assert start.value == 1;
    var i := 0;
    while i < |coeffs|
      invariant 0 <= i <= 1 && cov.Valid() && cov.elementSizes == [1, 1]
      invariant cov.Entries() == if i == 0 then afterDrift else [[d2, 0.0], [0.0, sigmas[0] * sigmas[0]]]
    {
      var s2 := sigmas[i] * sigmas[i];
      var put := cov.Put(start.value + i, start.value + i, s2);
      MatrixExt(cov.Entries(), [[d2, 0.0], [0.0, sigmas[0] * sigmas[0]]], 2, 2);
      i := i + 1;
    }
  }

  class Oscillator {
    const name: string
    /** The transmitter's frequency (MHz). */
    var frequency: real
    var freqDrift: real
    var freqDriftSigma: real
    var coeffs: seq<real>
    var sigmas: seq<real>
    var initialEpochStr: string
    var initialEpochTypeStr: string
    var solveforNames: seq<string>
    /** Epochs as modified Julian dates. */
    var initialEpoch: real
    var currentEpoch: real
    var frequencyModel: string
    const covariance: Covariance

    /** Two covariance elements owned by the oscillator: the drift (size 1)
        and the coefficients (at least one row). */
    ghost predicate Valid()
      reads this, covariance
    {
      && covariance.Valid()
      && covariance.elementNames == [DriftName, CoeffsName]
      && covariance.elementIDs == [DriftId, CoeffsId]
      && covariance.elementOwners == [name, name]
      && |covariance.elementSizes| == 2
      && covariance.elementSizes[0] == 1 && covariance.elementSizes[1] >= 1
      && covariance.dimension == 1 + covariance.elementSizes[1]
    }

    /** The size of the coefficient block of the covariance. */
    ghost function CoeffBlockSize(): int
      reads this, covariance
      requires Valid()
    {
      covariance.elementSizes[1]
    }

    /** The default oscillator: drift 0 with sigma 1e35, one coefficient equal
        to the transmitter frequency with sigma 1e35, and the squared sigmas
        on the diagonal of a 2-by-2 covariance. */
    constructor (name: string, transmitterFrequency: real)
      ensures Valid() && fresh(covariance)
      ensures this.name == name && frequency == transmitterFrequency
      ensures freqDrift == 0.0 && freqDriftSigma == UnknownSigma
      ensures coeffs == [transmitterFrequency] && sigmas == [UnknownSigma]
      ensures solveforNames == [] && frequencyModel == "Taylor's series"
      ensures initialEpochStr == "21545" && initialEpochTypeStr == "TAIModJulian"
      ensures covariance.Entries() ==
                [[UnknownSigma * UnknownSigma, 0.0], [0.0, UnknownSigma * UnknownSigma]]
    {
      this.name := name;
      frequency := transmitterFrequency;
      freqDrift := 0.0;
      freqDriftSigma := UnknownSigma;
      coeffs := [transmitterFrequency];
      sigmas := [UnknownSigma];
      initialEpochStr := "21545";
      initialEpochTypeStr := "TAIModJulian";
      solveforNames := [];
      initialEpoch := 0.0;
      currentEpoch := 0.0;
      frequencyModel := "Taylor's series";
      var cov := NewOscillatorCovariance(name);
      WriteInitialVariances(cov, UnknownSigma, [transmitterFrequency], [UnknownSigma]);
      covariance := cov;
    }

    /** The polynomial's argument at an epoch: elapsed days since the initial
        epoch plus the drift. */
    function Elapsed(atTime: real): real
      reads this
    {
      (atTime - initialEpoch) + freqDrift
    }

    /** GetFrequency(atTime): the polynomial evaluated by the running-power loop. */
    method GetFrequencyAt(atTime: real) returns (freq: real)
      ensures freq == Poly(coeffs, Elapsed(atTime))
    {
      freq := 0.0;
      var tPowK := 1.0;
      var t := (atTime - initialEpoch) + freqDrift;
      var k := 0;
      while k < |coeffs|
        invariant 0 <= k <= |coeffs|
        invariant freq == Poly(coeffs[..k], t) && tPowK == Pow(t, k)
      {
        assert coeffs[..k + 1][..k] == coeffs[..k];
        freq := freq + coeffs[k] * tPowK;
        tPowK := tPowK * t;
        k := k + 1;
      }
      assert coeffs[..k] == coeffs;
    }

    /** GetFrequency(): the frequency at the current epoch. */
    method GetFrequency() returns (freq: real)
      ensures freq == Poly(coeffs, Elapsed(currentEpoch))
    {
      freq := GetFrequencyAt(currentEpoch);
    }

    /** GetFrequencyDriftDerivative(atTime): 1e6 times the derivative of the
        polynomial (MHz/s to Hz/s). */
    method GetFrequencyDriftDerivativeAt(atTime: real) returns (deriv: real)
      ensures deriv == 1.0e6 * DerivSum(coeffs, Elapsed(atTime))
    {
      deriv := 0.0;
      var tPowKMinus1 := 1.0;
      var t := (atTime - initialEpoch) + freqDrift;
      var k := 1;
      while k < |coeffs|
        invariant 1 <= k && (k <= |coeffs| || |coeffs| == 0)
        invariant k <= |coeffs| ==> deriv == DerivSum(coeffs[..k], t)
        invariant |coeffs| == 0 ==> deriv == 0.0
        invariant tPowKMinus1 == Pow(t, k - 1)
      {
        assert coeffs[..k + 1][..k] == coeffs[..k];
        deriv := deriv + (k as real) * coeffs[k] * tPowKMinus1;
        tPowKMinus1 := tPowKMinus1 * t;
        k := k + 1;
      }
      if |coeffs| > 0 {
        assert coeffs[..k] == coeffs;
      }
      assert deriv == DerivSum(coeffs, t);
      deriv := deriv * 1.0e6;
    }

    /** GetFrequencyDriftDerivative(): the drift derivative at the current epoch. */
    method GetFrequencyDriftDerivative() returns (deriv: real)
      ensures deriv == 1.0e6 * DerivSum(coeffs, Elapsed(currentEpoch))
    {
      deriv := GetFrequencyDriftDerivativeAt(currentEpoch);
    }

    /** GetFrequencyPolynomialCoefficientsDerivative(atTime): the powers of t
        collected by one loop and scaled by 1e6 in a second one. */
    method GetCoefficientsDerivativeAt(atTime: real) returns (deriv: seq<real>)
      ensures deriv == CoeffDerivative(|coeffs|, Elapsed(atTime))
    {
      deriv := [];
      var tPowK := 1.0;
      var t := (atTime - initialEpoch) + freqDrift;
      var k := 0;
      while k < |coeffs|
        invariant 0 <= k <= |coeffs| && |deriv| == k && tPowK == Pow(t, k)
        invariant forall j :: 0 <= j < k ==> deriv[j] == Pow(t, j)
      {
        deriv := deriv + [tPowK];
        tPowK := tPowK * t;
        k := k + 1;
      }
      ghost var powers := deriv;
      var i := 0;
      while i < |deriv|
        invariant 0 <= i <= |deriv| == |powers| == |coeffs|
        invariant forall j :: 0 <= j < i ==> deriv[j] == 1.0e6 * powers[j]
        invariant forall j :: i <= j < |deriv| ==> deriv[j] == powers[j]
      {
        deriv := deriv[i := deriv[i] * 1.0e6];
        i := i + 1;
      }
      assert t == Elapsed(atTime);
      ghost var expected := CoeffDerivative(|coeffs|, t);
      forall j | 0 <= j < |deriv|
        ensures deriv[j] == expected[j]
      {
        assert powers[j] == Pow(t, j);
      }
      assert |deriv| == |expected|;
      assert deriv == expected;
    }

    /** GetFrequencyPolynomialCoefficientsDerivative(): at the current epoch. */
    method GetCoefficientsDerivative() returns (deriv: seq<real>)
      ensures deriv == CoeffDerivative(|coeffs|, Elapsed(currentEpoch))
    {
      deriv := GetCoefficientsDerivativeAt(currentEpoch);
    }

    /** SetRealParameter(FrequencyDrift, value). */
    method SetFrequencyDrift(value: real) returns (res: real)
      modifies this
      ensures res == value && freqDrift == value
      ensures freqDriftSigma == old(freqDriftSigma) && coeffs == old(coeffs) && sigmas == old(sigmas)
    {
      freqDrift := value;
      res := freqDrift;
    }

    /** SetRealParameter(FrequencyDriftNoiseSigma, value): a negative sigma is
        refused; otherwise its square becomes the drift variance. */
    method SetFrequencyDriftNoiseSigma(value: real) returns (res: Result<real>)
      requires Valid()
      modifies this, covariance.theCovariance
      ensures Valid()
      ensures res.Ok? <==> value >= 0.0
      ensures res.Ok? ==> res.value == value && freqDriftSigma == value &&
                          covariance.Entries() == WithDiagonal(old(covariance.Entries()), 0, value * value)
      ensures res.Err? ==> freqDriftSigma == old(freqDriftSigma) &&
                           covariance.Entries() == old(covariance.Entries())
      ensures freqDrift == old(freqDrift) && coeffs == old(coeffs) && sigmas == old(sigmas)
    {
      if value >= 0.0 {
        freqDriftSigma := value;
        assert FirstIndex(covariance.elementNames, DriftName) == 0;
        var start := covariance.SubMatrixStartByName(DriftName);
        assert covariance.elementSizes[..0] == [];
        assert start.value == 0;
        ghost var e0 := covariance.Entries();
        assert e0 == old(covariance.Entries());
        assert 0 < covariance.dimension;
        var s2 := value * value;
        var put := covariance.Put(start.value, start.value, s2);
        assert put.Pass?;
        assert covariance.Entries() == e0[start.value := e0[start.value][start.value := s2]];
        assert covariance.Entries() == WithDiagonal(old(covariance.Entries()), 0, value * value);
      } else {
        return Err("Error: frequency drift noise sigma set to " + name +
                   ".FrequencyDriftNoiseSigma is a negative number.\n");
      }
      res := Ok(freqDriftSigma);
    }

    /** GetRealParameter(FrequencyPolynomialCoefficients, index). */
    function CoefficientAt(index: int): (v: Result<real>)
      reads this
      ensures v.Ok? <==> 0 <= index < |coeffs|
      ensures v.Ok? ==> v.value == coeffs[index]
    {
      if index < 0 || index >= |coeffs| then
        Err("Error: index is out of bound when getting value of " + name + ".FrequencyPolynomialCoefficients parameter.")
      else Ok(coeffs[index])
    }

    /** GetRealParameter(FrequencyPolynomialCoefficientsNoiseSigmas, index): as
        written, the index is checked against the sigmas but the coefficient
        is returned; a vector read outside the coefficients is an error. */
    function SigmaAt(index: int): (v: Result<real>)
      reads this
      ensures v.Ok? <==> 0 <= index < |sigmas| && index < |coeffs|
      ensures v.Ok? ==> v.value == coeffs[index]
    {
      if index < 0 || index >= |sigmas| then
        Err("Error: index is out of bound when getting value of " + name + ".FrequencyPolynomialCoefficientNoiseSigmas parameter.")
      else if index >= |coeffs| then Err("Rvector index out of bounds")
      else Ok(coeffs[index])
    }

    /** SetRealParameter(FrequencyPolynomialCoefficients, value, index):
        overwrite in range, append at index == size, refuse any other index.
        The covariance is not resized. */
    method SetCoefficient(value: real, index: int) returns (res: Result<real>)
      modifies this
      ensures res.Ok? <==> 0 <= index <= old(|coeffs|)
      ensures res.Ok? ==> res.value == value
      ensures res.Ok? && index < old(|coeffs|) ==> coeffs == old(coeffs)[index := value]
      ensures res.Ok? && index == old(|coeffs|) ==> coeffs == old(coeffs) + [value]
      ensures res.Err? ==> coeffs == old(coeffs)
      ensures sigmas == old(sigmas) && freqDrift == old(freqDrift)
    {
      if 0 <= index < |coeffs| {
        coeffs := coeffs[index := value];
      } else if index == |coeffs| {
        coeffs := coeffs + [value];
      } else {
        return Err("Error: index is out of bound when setting value to " + name +
                   ".FrequencyPolynomialCoefficients parameter.");
      }
      res := Ok(coeffs[index]);
    }

    /** SetRealParameter(FrequencyPolynomialCoefficientsNoiseSigmas, value,
        index): overwrite or append the sigma and write its square on the
        diagonal of the coefficient block; an append first grows the block by
        one row and column at its end when it is smaller than the sigma list.
        A diagonal entry outside the matrix is an error after the sigma list
        has changed, as in GMAT. */
    method SetCoefficientSigma(value: real, index: int) returns (res: Result<real>)
      requires Valid()
      modifies this, covariance, covariance.theCovariance
      ensures Valid()
      ensures index < 0 || index > old(|sigmas|) ==>
                res.Err? && sigmas == old(sigmas) && covariance.Entries() == old(covariance.Entries())
      ensures 0 <= index < old(|sigmas|) ==>
                && sigmas == old(sigmas)[index := value]
                && CoeffBlockSize() == old(CoeffBlockSize())
                && (res.Ok? <==> index < old(CoeffBlockSize()))
                && (res.Ok? ==> (res.value == value &&
                      covariance.Entries() == WithDiagonal(old(covariance.Entries()), 1 + index, value * value)))
                && (res.Err? ==> covariance.Entries() == old(covariance.Entries()))
      ensures index == old(|sigmas|) ==>
                var grows := old(CoeffBlockSize()) < index + 1;
                var g := if grows then Grown(old(covariance.Entries()), old(covariance.dimension), 1)
                         else old(covariance.Entries());
                && sigmas == old(sigmas) + [value]
                && CoeffBlockSize() == (if grows then old(CoeffBlockSize()) + 1 else old(CoeffBlockSize()))
                && (res.Ok? <==> 1 + index < |g|)
                && (res.Ok? ==> (res.value == value && covariance.Entries() == WithDiagonal(g, 1 + index, value * value)))
                && (res.Err? ==> covariance.Entries() == g)
      ensures coeffs == old(coeffs) && freqDrift == old(freqDrift)
    {
      if 0 <= index < |sigmas| {
        res := ReplaceSigma(value, index);
      } else if index == |sigmas| {
        res := AppendSigma(value);
      } else {
        return Err("Error: index is out of bound when setting value to " + name +
                   ".FrequencyPolynomialCoefficientNoiseSigmas parameter.");
      }
    }

    /** SetCoefficientSigma for an index already in the sigma list. */
    method ReplaceSigma(value: real, index: int) returns (res: Result<real>)
      requires Valid() && 0 <= index < |sigmas|
      modifies this, covariance.theCovariance
      ensures Valid()
      ensures sigmas == old(sigmas)[index := value]
      ensures CoeffBlockSize() == old(CoeffBlockSize())
      ensures res.Ok? <==> index < old(CoeffBlockSize())
      ensures res.Ok? ==>
                res.value == value &&
                covariance.Entries() == WithDiagonal(old(covariance.Entries()), 1 + index, value * value)
      ensures res.Err? ==> covariance.Entries() == old(covariance.Entries())
      ensures coeffs == old(coeffs) && freqDrift == old(freqDrift)
    {
      sigmas := sigmas[index := value];
      var put := WriteCoeffVariance(index, value);
      if put.Fail? {
        return Err(put.msg);
      }
      res := Ok(sigmas[index]);
    }

    /** SetCoefficientSigma for the index just past the sigma list: the
        coefficient block first grows when it is smaller than the new list. */
    method AppendSigma(value: real) returns (res: Result<real>)
      requires Valid()
      modifies this, covariance, covariance.theCovariance
      ensures Valid()
      ensures
        var grows := old(CoeffBlockSize()) < old(|sigmas|) + 1;
        var g := if grows then Grown(old(covariance.Entries()), old(covariance.dimension), 1)
                 else old(covariance.Entries());
        && sigmas == old(sigmas) + [value]
        && CoeffBlockSize() == (if grows then old(CoeffBlockSize()) + 1 else old(CoeffBlockSize()))
        && (res.Ok? <==> 1 + old(|sigmas|) < |g|)
        && (res.Ok? ==> (res.value == value && covariance.Entries() == WithDiagonal(g, 1 + old(|sigmas|), value * value)))
        && (res.Err? ==> covariance.Entries() == g)
      ensures coeffs == old(coeffs) && freqDrift == old(freqDrift)
    {
      sigmas := sigmas + [value];
      var elementSize := covariance.ElementSizeByName(CoeffsName);
      assert LastIndex(covariance.elementNames, CoeffsName) == 1;
      if elementSize < |sigmas| {
        GrowCoeffBlock();
      }
      var put := WriteCoeffVariance(|sigmas| - 1, value);
      if put.Fail? {
        return Err(put.msg);
      }
      res := Ok(sigmas[|sigmas| - 1]);
    }

    /** covariance(start + i, start + i) = v * v, with start the first row of
        the coefficient block; bounds-checked. */
    method WriteCoeffVariance(i: int, v: real) returns (res: Outcome)
      requires Valid() && 0 <= i
      modifies covariance.theCovariance
      ensures Valid()
      ensures res.Pass? <==> 0 <= i < CoeffBlockSize()
      ensures res.Pass? ==> covariance.Entries() == WithDiagonal(old(covariance.Entries()), 1 + i, v * v)
      ensures res.Fail? ==> covariance.Entries() == old(covariance.Entries())
    {
      assert covariance.elementSizes[..1] == [1] && [1][..0] == [];
      assert FirstIndex(covariance.elementNames, CoeffsName) == 1;
      var start := covariance.SubMatrixStartByName(CoeffsName);
      assert start.value == 1;
      assert covariance.dimension == 1 + CoeffBlockSize();
      var s2 := v * v;
      var at := start.value + i;
      ghost var e0 := covariance.Entries();
      res := covariance.Put(at, at, s2);
      assert res.Pass? <==> 0 <= at < covariance.dimension;
      assert covariance.dimension == 1 + CoeffBlockSize();
      assert res.Pass? ==> covariance.Entries() == e0[at := e0[at][at := s2]];
    }

    /** IncreasingElementSize(coefficients, its size, 1): one zero row and
        column at the end of the coefficient block, the end of the matrix. */
    method GrowCoeffBlock()
      requires Valid()
      modifies covariance
      ensures Valid()
      ensures fresh(covariance.theCovariance)
      ensures CoeffBlockSize() == old(CoeffBlockSize()) + 1
      ensures covariance.Entries() == Grown(old(covariance.Entries()), old(covariance.dimension), 1)
    {
      assert covariance.elementSizes[..1] == [1] && [1][..0] == [];
      assert FirstIndex(covariance.elementNames, CoeffsName) == 1;
      assert LastIndex(covariance.elementNames, CoeffsName) == 1;
      var submatrixSize := covariance.ElementSizeByName(CoeffsName);
      var grown := covariance.IncreasingElementSize(CoeffsName, submatrixSize, 1);
    }

    /** SetRvectorParameter(FrequencyPolynomialCoefficients, v). */
    method SetCoefficients(value: seq<real>)
      modifies this
      ensures coeffs == value && sigmas == old(sigmas)
    {
      coeffs := value;
    }

    /** SetRvectorParameter(FrequencyPolynomialCoefficientsNoiseSigmas, v). */
    method SetSigmas(value: seq<real>)
      modifies this
      ensures sigmas == value && coeffs == old(coeffs)
    {
      sigmas := value;
    }

    /** SetStringParameter(SolveFors, value, index): "{}" clears the list;
        only FrequencyDrift and FrequencyPolynomialCoefficients are accepted,
        each at most once. */
    method SetSolveFor(value: string) returns (res: Result<bool>)
      modifies this
      ensures IsEmptyList(value) ==> res == Ok(true) && solveforNames == []
      ensures !IsEmptyList(value) ==>
                (res.Ok? <==> (value == DriftName || value == CoeffsName) && value !in old(solveforNames))
      ensures !IsEmptyList(value) && res.Ok? ==> res.value && solveforNames == old(solveforNames) + [value]
      ensures res.Err? ==> solveforNames == old(solveforNames)
      ensures coeffs == old(coeffs) && sigmas == old(sigmas)
    {
      if IsEmptyList(value) {
        solveforNames := [];
        return Ok(true);
      }
      if value != DriftName && value != CoeffsName {
        return Err("Error: " + name + ".SolveFors parameter has invalid value ('" + value +
                   "').\n Valid values are 'FrequencyDrift' and 'FrequencyPolynomialCoefficients'.");
      }
      if value !in solveforNames {
        solveforNames := solveforNames + [value];
      } else {
        return Err("Error: '" + value + "' set to " + name + ".SolveFors parameter is replicated.\n");
      }
      res := Ok(true);
    }

    /** SetEpoch(epoch): record the epoch; with the Taylor model the
        transmitter frequency becomes the polynomial's value there. No
        coefficients, or the Fourier model, is an error. */
    method SetEpoch(epoch: real) returns (res: Outcome)
      modifies this
      ensures currentEpoch == epoch
      ensures res.Pass? <==> |coeffs| > 0 && frequencyModel != "Fourier's series"
      ensures res.Pass? && frequencyModel == "Taylor's series" ==>
                frequency == Poly(coeffs, Elapsed(epoch))
      ensures !(res.Pass? && frequencyModel == "Taylor's series") ==> frequency == old(frequency)
      ensures coeffs == old(coeffs) && sigmas == old(sigmas) && freqDrift == old(freqDrift)
      ensures initialEpoch == old(initialEpoch) && frequencyModel == old(frequencyModel)
    {
      currentEpoch := epoch;
      if |coeffs| == 0 {
        return Fail("Error: Oscillator's polynomial coefficients vector has size of zero.");
      }
      if frequencyModel == "Taylor's series" {
        frequency := GetFrequency();
      } else if frequencyModel == "Fourier's series" {
        return Fail("Error: Oscillator's Fourier's series frequency model is not implemented yet.");
      }
      res := Pass;
    }

    /** Initialize. The transmitter's own initialization, the epoch-format
        check and the conversion of the initial epoch to A1 modified Julian
        days are inputs. As written, the result is false even on success. */
    method Initialize(transmitterReady: bool, epochTypeValid: bool, convertedEpoch: Option<real>)
      returns (res: Result<bool>)
      modifies this
      ensures !transmitterReady ==> res == Ok(false) && coeffs == old(coeffs) && sigmas == old(sigmas)
      ensures transmitterReady && |old(coeffs)| != |old(sigmas)| ==> res.Err? && coeffs == old(coeffs)
      ensures transmitterReady && |old(coeffs)| == |old(sigmas)| ==>
                && (old(coeffs) == [] ==> coeffs == [old(frequency)] && sigmas == [UnknownSigma])
                && (old(coeffs) != [] ==> coeffs == old(coeffs) && sigmas == old(sigmas))
                && (res.Ok? <==> epochTypeValid && convertedEpoch.Some? &&
                                 old(frequencyModel) != "Fourier's series")
                && (res.Ok? ==> !res.value && initialEpoch == convertedEpoch.value &&
                                currentEpoch == initialEpoch)
                && (res.Ok? && old(frequencyModel) == "Taylor's series" ==>
                      frequency == Poly(coeffs, freqDrift))
    {
      if !transmitterReady {
        return Ok(false);
      }
      if |coeffs| != |sigmas| {
        return Err("Error: Real vectors setting to " + name + ".FrequencyPolynomialCoefficients and " +
                   name + ".FrequencyPolynomialCoefficientsNoiseSigma has a different size.");
      }
      if |coeffs| == 0 {
        coeffs := [frequency];
        sigmas := [UnknownSigma];
      }
      if !epochTypeValid {
        return Err("Error: " + name + ".InitialSettingTimeType has invalid value ('" + initialEpochTypeStr + "').");
      }
      if convertedEpoch.None? {
        return Err("Error: " + name + ".InitialSettingTime has invalid value ('" + initialEpochStr + "').");
      }
      initialEpoch := convertedEpoch.value;
      var epochSet := SetEpoch(initialEpoch);
      if epochSet.Fail? {
        return Err(epochSet.msg);
      }
      assert Elapsed(initialEpoch) == freqDrift;
      res := Ok(false);
    }
  }
}
