/** The orbit-state conversion module of the optimal-control prototype
    (StateConversionsTest.py): the routing of a conversion through the
    Cartesian representation, the clamped arc-cosine, the input checks and
    the degenerate-orbit rewrite of Kep2Cart, the special cases of Cart2Kep,
    the skew-symmetric matrix of a vector and the angle normalisation of
    TA2EA. The floating-point trigonometry (sines, cosines, arc-cosines,
    square roots, the rotations to the inertial frame) is not modelled: it
    enters as the functions of a Trig value. */
module StateConversionsModel {
  import opened Common
  import opened Matrices

  /** The stateTypes enumeration. */
  const Cartesian: int := 1
  const ClassicalKeplerian: int := 2
  const SphericalAzFPA: int := 4

  /** numpy's machine epsilon for a double, 2^-52. */
  const Eps: real := 1.0 / 4503599627370496.0
  /** Eccentricity below which an orbit is circular. */
  const CircTol: real := 0.0000000001
  /** Inclination (radians) below which an orbit is equatorial. */
  const EqTol: real := 0.0000000001
  /** np.pi, as the double prints. */
  const Pi: real := 3.141592653589793
  const TwoPi: real := 2.0 * Pi

  /** The floating-point functions the conversions call: numpy's arccos,
      floating-point division (which yields inf or nan instead of failing
      on a zero divisor), the atan2 value TA2EA computes from a true anomaly
      and an eccentricity, and the geometric conversions themselves. */
  datatype Trig = Trig(
    acos: real -> real,
    div: (real, real) -> real,
    eccentricAnomaly: (real, real) -> real,
    perifocalToInertial: (Elements, real, real) -> seq<real>,
    sphAzFpaToCart: seq<real> -> seq<real>,
    cartToKep: (seq<real>, real) -> seq<real>,
    cartToSphAzFpa: seq<real> -> seq<real>)

  /** numpy's arccos maps [-1, 1] into [0, pi]. */
  ghost predicate AcosInRange(t: Trig)
  {
    forall x :: -1.0 <= x <= 1.0 ==> 0.0 <= t.acos(x) <= Pi
  }

  // ---------------------------------------------------------------------
  // acosSafe

  /** The argument of acosSafe after it is forced into [-1, 1]. */
  function Clamp(x: real): real
  {
    if x < -1.0 then -1.0 else if x > 1.0 then 1.0 else x
  }

  /** The clamped argument is the point of [-1, 1] nearest the input: it is
      the input itself when the input is in range, and no point of the
      interval is nearer. */
  lemma ClampIsNearest(x: real, y: real)
    requires -1.0 <= y <= 1.0
    ensures -1.0 <= Clamp(x) <= 1.0
    ensures -1.0 <= x <= 1.0 ==> Clamp(x) == x
    ensures Abs(Clamp(x) - x) <= Abs(y - x)
  {
  }

  /** acosSafe: the arc-cosine of the argument clamped into [-1, 1]. */
  function AcosSafe(x: real, t: Trig): real
  {
    t.acos(Clamp(x))
  }

  /** acosSafe never hands arccos an argument outside its domain, gives the
      angle of the nearest admissible argument, and lands in [0, pi]. */
  lemma AcosSafeRules(x: real, t: Trig)
    ensures AcosSafe(x, t) == AcosSafe(Clamp(x), t)
    ensures x < -1.0 ==> AcosSafe(x, t) == t.acos(-1.0)
    ensures x > 1.0 ==> AcosSafe(x, t) == t.acos(1.0)
    ensures AcosInRange(t) ==> 0.0 <= AcosSafe(x, t) <= Pi
  {
    ClampIsNearest(x, 0.0);
    ClampIsNearest(Clamp(x), 0.0);
  }

  // ---------------------------------------------------------------------
  // Kep2Cart: input checks

  /** Classical Keplerian elements [SMA, ECC, INC, AOP, RAAN, TA]. */
  datatype Elements = Elements(sma: real, ecc: real, inc: real, aop: real, raan: real, ta: real)

  function ElementsOf(s: seq<real>): (e: Elements)
    requires |s| >= 6
    ensures [e.sma, e.ecc, e.inc, e.aop, e.raan, e.ta] == s[..6]
  {
    Elements(s[0], s[1], s[2], s[3], s[4], s[5])
  }

  /** The reasons Kep2Cart refuses its input and returns []. */
  datatype KepFault =
    | NegativeEccentricity
    | HyperbolicNeedsNegativeSma
    | EllipticNeedsPositiveSma
    | ParabolicElements
    | ImpossibleTrueAnomaly

  /** The line Kep2Cart prints for each refusal. */
  function KepFaultMessage(f: KepFault): string
  {
    match f
    case NegativeEccentricity => "Kep2Cart: ECC must be >= 0.0"
    case HyperbolicNeedsNegativeSma => "Kep2Cart: If ECC > 1.0, SMA must be < 0.0"
    case EllipticNeedsPositiveSma => "Kep2Cart: If ECC < 1.0, SMA must be > 0.0"
    case ParabolicElements => "Kep2Cart: Parabolic orbits cannot be entered in Keplerian or Modified Keplerian format"
    case ImpossibleTrueAnomaly => "Kep2Cart: The TA value is not physically possible for a hyperbolic orbit"
  }

  /** The checks of Kep2Cart, in their order: the first that fails names
      the refusal. */
  function KepCheck(e: Elements, t: Trig): Option<KepFault>
  {
    if e.ecc < 0.0 then Some(NegativeEccentricity)
    else if e.ecc > 1.0 && e.sma > 0.0 then Some(HyperbolicNeedsNegativeSma)
    else if e.ecc < 1.0 && e.sma < 0.0 then Some(EllipticNeedsPositiveSma)
    else if Abs(e.ecc - 1.0) < 2.0 * Eps then Some(ParabolicElements)
    else if e.ecc > 1.0 && e.sma < 0.0 && Abs(e.ta) > AcosSafe(-1.0 / e.ecc, t) then Some(ImpossibleTrueAnomaly)
    else None
  }

  /** The elements Kep2Cart accepts are an ellipse (eccentricity at least
      2 eps below 1) with a non-negative semi-major axis, or a hyperbola
      (eccentricity at least 2 eps above 1) with a non-positive one whose
      true anomaly, when the axis is negative, lies within the asymptote
      angle; and every such input is accepted. The asymptote angle needs
      no clamping, since -1/ECC is already inside (-1, 0). */
  lemma KepAcceptedInputs(e: Elements, t: Trig)
    ensures KepCheck(e, t) == None <==>
      ((0.0 <= e.ecc && e.ecc <= 1.0 - 2.0 * Eps && e.sma >= 0.0) ||
       (e.ecc >= 1.0 + 2.0 * Eps && e.sma <= 0.0 &&
        (e.sma < 0.0 ==> Abs(e.ta) <= t.acos(-1.0 / e.ecc))))
    ensures e.ecc > 1.0 ==> -1.0 < -1.0 / e.ecc < 0.0 && Clamp(-1.0 / e.ecc) == -1.0 / e.ecc
  {
    if e.ecc > 1.0 {
      assert 1.0 / e.ecc < 1.0 by {
        assert (1.0 / e.ecc) * e.ecc == 1.0;
      }
      assert 1.0 / e.ecc > 0.0;
    }
  }

  /** ECC < 0 is refused before anything else is looked at. */
  lemma NegativeEccentricityFirst(e: Elements, t: Trig)
    requires e.ecc < 0.0
    ensures KepCheck(e, t) == Some(NegativeEccentricity)
  {
  }

  /** The semi-latus rectum p = SMA (1 - ECC^2) of accepted elements: the
      branch for ECC == 1 ("not supported yet") is never reached, and p is
      positive whenever the semi-major axis is not zero. */
  function SemiLatus(e: Elements): real
  {
    e.sma * (1.0 - e.ecc * e.ecc)
  }

  lemma AcceptedSemiLatus(e: Elements, t: Trig)
    requires KepCheck(e, t) == None
    ensures e.ecc != 1.0
    ensures e.sma != 0.0 ==> SemiLatus(e) > 0.0
  {
    KepAcceptedInputs(e, t);
    if e.sma != 0.0 {
      if e.ecc < 1.0 {
        assert e.ecc * e.ecc <= e.ecc;
        assert 1.0 - e.ecc * e.ecc > 0.0;
        assert e.sma > 0.0;
        PositiveProduct(e.sma, 1.0 - e.ecc * e.ecc);
      } else {
        assert e.ecc * e.ecc > e.ecc;
        assert 1.0 - e.ecc * e.ecc < 0.0;
        assert e.sma < 0.0;
        PositiveProduct(-e.sma, -(1.0 - e.ecc * e.ecc));
      }
    }
  }

  lemma PositiveProduct(a: real, b: real)
    requires a > 0.0 && b > 0.0
    ensures a * b > 0.0 && (-a) * (-b) > 0.0
  {
  }

  // ---------------------------------------------------------------------
  // Kep2Cart: degenerate orbits

  predicate IsCircular(e: Elements) { Abs(e.ecc) < CircTol }
  predicate IsEquatorial(e: Elements) { Abs(e.inc) < EqTol }

  /** The degenerate-orbit rewrite as Kep2Cart writes it: a circular
      equatorial orbit has AOP and RAAN zeroed (the true longitude it
      computes is never used), a circular inclined one folds AOP into TA,
      an elliptic equatorial one folds RAAN into AOP. */
  function FoldAsWritten(e: Elements): Elements
  {
    if IsCircular(e) && IsEquatorial(e) then e.(aop := 0.0, raan := 0.0)
    else if IsCircular(e) && !IsEquatorial(e) then e.(ta := e.aop + e.ta, aop := 0.0)
    else if IsEquatorial(e) && !IsCircular(e) then e.(aop := e.aop + e.raan, raan := 0.0)
    else e
  }

  /** The rewrite with the true longitude AOP + RAAN + TA taken as the true
      anomaly of a circular equatorial orbit. */
  function Fold(e: Elements): Elements
  {
    if IsCircular(e) && IsEquatorial(e) then e.(ta := e.aop + e.raan + e.ta, aop := 0.0, raan := 0.0)
    else if IsCircular(e) && !IsEquatorial(e) then e.(ta := e.aop + e.ta, aop := 0.0)
    else if IsEquatorial(e) && !IsCircular(e) then e.(aop := e.aop + e.raan, raan := 0.0)
    else e
  }

  /** The angle from the node to the spacecraft, measured through the node:
      for an equatorial orbit the position depends on it alone. */
  function TrueLongitude(e: Elements): real
  {
    e.raan + e.aop + e.ta
  }

  /** The rewrite keeps the shape (SMA, ECC, INC) and the true longitude,
      zeroes the angles a degenerate orbit does not define (RAAN when
      equatorial, AOP when circular), keeps AOP + TA of a circular inclined
      orbit, and is idempotent. */
  lemma FoldKeepsOrbit(e: Elements)
    ensures Fold(e).sma == e.sma && Fold(e).ecc == e.ecc && Fold(e).inc == e.inc
    ensures TrueLongitude(Fold(e)) == TrueLongitude(e)
    ensures IsEquatorial(e) ==> Fold(e).raan == 0.0
    ensures IsCircular(e) ==> Fold(e).aop == 0.0
    ensures IsCircular(e) && !IsEquatorial(e) ==> Fold(e).raan == e.raan && Fold(e).aop + Fold(e).ta == e.aop + e.ta
    ensures !IsCircular(e) && !IsEquatorial(e) ==> Fold(e) == e
    ensures Fold(Fold(e)) == Fold(e)
  {
  }

  /** The rewrite as written differs only for circular equatorial orbits,
      and there it drops AOP and RAAN from the true longitude: with
      AOP = 1 the position comes out at longitude 0 instead of 1. */
  lemma FoldAsWrittenLosesLongitude()
    ensures forall e :: !(IsCircular(e) && IsEquatorial(e)) ==> FoldAsWritten(e) == Fold(e)
    ensures var e := Elements(7000.0, 0.0, 0.0, 1.0, 0.0, 0.0);
      TrueLongitude(FoldAsWritten(e)) == 0.0 && TrueLongitude(e) == 1.0
  {
  }

  // ---------------------------------------------------------------------
  // Kep2Cart, ToCartesian, FromCartesian, StateConv

  /** Kep2Cart: [] for refused elements; otherwise the elements after the
      degenerate-orbit rewrite placed in the inertial frame. Fewer than six
      elements fail on the unpacking. */
  function Kep2Cart(elements: seq<real>, mu: real, t: Trig): (r: Result<seq<real>>)
    ensures |elements| < 6 <==> r.Err?
    ensures r.Ok? && KepCheck(ElementsOf(elements), t).Some? ==> r.value == []
  {
    if |elements| < 6 then Err("IndexError: index out of range")
    else
      var e := ElementsOf(elements);
      if KepCheck(e, t).Some? then Ok([])
      else Ok(t.perifocalToInertial(Fold(e), SemiLatus(Fold(e)), mu))
  }

  /** Kep2Cart as GMAT writes it, with the rewrite FoldAsWritten. */
  function Kep2CartAsWritten(elements: seq<real>, mu: real, t: Trig): (r: Result<seq<real>>)
    ensures |elements| < 6 <==> r.Err?
  {
    if |elements| < 6 then Err("IndexError: index out of range")
    else
      var e := ElementsOf(elements);
      if KepCheck(e, t).Some? then Ok([])
      else Ok(t.perifocalToInertial(FoldAsWritten(e), SemiLatus(FoldAsWritten(e)), mu))
  }

  /** Kep2Cart and Kep2CartAsWritten agree except on accepted circular
      equatorial elements; there Kep2Cart places the orbit as the as-written
      rewrite would with the true anomaly replaced by the true longitude. */
  lemma Kep2CartCorrectsOnlyCircularEquatorial(elements: seq<real>, mu: real, t: Trig)
    ensures |elements| < 6 || !(IsCircular(ElementsOf(elements)) && IsEquatorial(ElementsOf(elements)))
      ==> Kep2Cart(elements, mu, t) == Kep2CartAsWritten(elements, mu, t)
    ensures |elements| >= 6 && KepCheck(ElementsOf(elements), t).None?
      && IsCircular(ElementsOf(elements)) && IsEquatorial(ElementsOf(elements))
      ==> var e := ElementsOf(elements);
          var placed := FoldAsWritten(e).(ta := TrueLongitude(e));
          Kep2Cart(elements, mu, t) == Ok(t.perifocalToInertial(placed, SemiLatus(placed), mu))
  {
  }

  /** The Cartesian state of a state of the given type: an unknown type
      leaves the result unassigned. */
  function ToCartesian(s: seq<real>, inputType: int, mu: real, t: Trig): Result<seq<real>>
  {
    if inputType == Cartesian then Ok(s)
    else if inputType == ClassicalKeplerian then Kep2Cart(s, mu, t)
    else if inputType == SphericalAzFPA then Ok(t.sphAzFpaToCart(s))
    else Err("UnboundLocalError: local variable 'cart' referenced before assignment")
  }

  /** The state of the given type for a Cartesian state. */
  function FromCartesian(cart: seq<real>, outputType: int, mu: real, t: Trig): Result<seq<real>>
  {
    if outputType == Cartesian then Ok(cart)
    else if outputType == ClassicalKeplerian then Ok(t.cartToKep(cart, mu))
    else if outputType == SphericalAzFPA then Ok(t.cartToSphAzFpa(cart))
    else Err("UnboundLocalError: local variable 'state' referenced before assignment")
  }

  predicate IsStateType(k: int)
  {
    k == Cartesian || k == ClassicalKeplerian || k == SphericalAzFPA
  }

  /** StateConv: the input when the two types are equal; otherwise the
      input converted to Cartesian unless it already is, then converted to
      the output type unless that is Cartesian. */
  function StateConv(s: seq<real>, inputType: int, outputType: int, mu: real, t: Trig): Result<seq<real>>
  {
    if inputType == outputType then Ok(s)
    else
      var cart :- (if inputType != Cartesian then ToCartesian(s, inputType, mu, t) else Ok(s));
      if outputType == Cartesian then Ok(cart) else FromCartesian(cart, outputType, mu, t)
  }

  /** Equal types return the input, whatever it is and whatever the type. */
  lemma StateConvSameType(s: seq<real>, k: int, mu: real, t: Trig)
    ensures StateConv(s, k, k, mu, t) == Ok(s)
  {
  }

  /** Different types go through the Cartesian state: the two shortcuts of
      StateConv agree with the full ToCartesian-then-FromCartesian route,
      and a conversion between two non-Cartesian types is the conversion to
      Cartesian followed by the conversion from it. An unknown type on
      either side fails. */
  lemma StateConvThroughCartesian(s: seq<real>, inputType: int, outputType: int, mu: real, t: Trig)
    requires inputType != outputType
    ensures StateConv(s, inputType, outputType, mu, t) ==
      (match ToCartesian(s, inputType, mu, t)
       case Err(m) => Err(m)
       case Ok(cart) => FromCartesian(cart, outputType, mu, t))
    ensures inputType != Cartesian && outputType != Cartesian ==>
      StateConv(s, inputType, outputType, mu, t) ==
      (match StateConv(s, inputType, Cartesian, mu, t)
       case Err(m) => Err(m)
       case Ok(cart) => StateConv(cart, Cartesian, outputType, mu, t))
    ensures !IsStateType(inputType) ==> StateConv(s, inputType, outputType, mu, t).Err?
    ensures ToCartesian(s, inputType, mu, t).Ok? && !IsStateType(outputType) ==>
      StateConv(s, inputType, outputType, mu, t).Err?
  {
  }

  // ---------------------------------------------------------------------
  // Cart2Kep: the special cases

  /** The four ways Cart2Kep determines RAAN, AOP and TA. */
  datatype KepCase = EllipticEquatorial | CircularInclined | CircularEquatorial | NotSpecial

  /** The tests of Cart2Kep, in their order. */
  function Cart2KepCase(inc: real, ecc: real): KepCase
  {
    if inc <= EqTol && ecc > CircTol then EllipticEquatorial
    else if inc >= EqTol && ecc <= CircTol then CircularInclined
    else if inc <= EqTol && ecc <= CircTol then CircularEquatorial
    else NotSpecial
  }

  /** The cases partition the (INC, ECC) plane: an inclination exactly at
      the tolerance with a circular eccentricity counts as inclined. */
  lemma Cart2KepCases(inc: real, ecc: real)
    ensures Cart2KepCase(inc, ecc) == EllipticEquatorial <==> inc <= EqTol && ecc > CircTol
    ensures Cart2KepCase(inc, ecc) == CircularInclined <==> inc >= EqTol && ecc <= CircTol
    ensures Cart2KepCase(inc, ecc) == CircularEquatorial <==> inc < EqTol && ecc <= CircTol
    ensures Cart2KepCase(inc, ecc) == NotSpecial <==> inc > EqTol && ecc > CircTol
  {
  }

  /** The vectors and magnitudes Cart2Kep computes before its special cases:
      position, velocity, eccentricity vector, node vector, |r|, |n|, ECC and
      INC. */
  datatype OrbitVectors = OrbitVectors(rv: seq<real>, vv: seq<real>, ev: seq<real>, nv: seq<real>,
                                       r: real, n: real, ecc: real, inc: real)
  {
    predicate Valid() { |rv| == 3 && |vv| == 3 && |ev| == 3 && |nv| == 3 }
  }

  function Dot3(u: seq<real>, v: seq<real>): real
    requires |u| == 3 && |v| == 3
  {
    u[0] * v[0] + u[1] * v[1] + u[2] * v[2]
  }

  function Over(u: seq<real>, d: real, t: Trig): (r: seq<real>)
    requires |u| == 3
    ensures |r| == 3
  {
    [t.div(u[0], d), t.div(u[1], d), t.div(u[2], d)]
  }

  /** An angle from acosSafe, reflected to 2 pi - theta when its sign test
      is negative. */
  function Reflected(theta: real, negative: bool): real
  {
    if negative then TwoPi - theta else theta
  }

  /** (AOP, RAAN, TA) as Cart2Kep determines them. */
  function Cart2KepAngles(o: OrbitVectors, t: Trig): (real, real, real)
    requires o.Valid()
  {
    match Cart2KepCase(o.inc, o.ecc)
    case EllipticEquatorial =>
      (Reflected(AcosSafe(t.div(o.ev[0], o.ecc), t), o.ev[1] < 0.0),
       0.0,
       Reflected(AcosSafe(t.div(t.div(Dot3(o.ev, o.rv), o.ecc), o.r), t), Dot3(o.rv, o.vv) < 0.0))
    case CircularInclined =>
      (0.0,
       Reflected(AcosSafe(t.div(o.nv[0], o.n), t), o.nv[1] < 0.0),
       Reflected(AcosSafe(Dot3(Over(o.nv, o.n, t), Over(o.rv, o.r, t)), t), o.rv[2] < 0.0))
    case CircularEquatorial =>
      (0.0, 0.0, Reflected(AcosSafe(t.div(o.rv[0], o.r), t), o.rv[1] < 0.0))
    case NotSpecial =>
      (Reflected(AcosSafe(Dot3(Over(o.nv, o.n, t), Over(o.ev, o.ecc, t)), t), o.ev[2] < 0.0),
       Reflected(AcosSafe(t.div(o.nv[0], o.n), t), o.nv[1] < 0.0),
       Reflected(AcosSafe(Dot3(Over(o.ev, o.ecc, t), Over(o.rv, o.r, t)), t), Dot3(o.rv, o.vv) < 0.0))
  }

  /** A reflected acosSafe angle lies in [0, 2 pi], in the upper half
      exactly when its sign test is negative. */
  lemma ReflectedHalf(x: real, negative: bool, t: Trig)
    requires AcosInRange(t)
    ensures var a := Reflected(AcosSafe(x, t), negative);
      0.0 <= a <= TwoPi && (negative ==> Pi <= a) && (!negative ==> a <= Pi)
  {
    AcosSafeRules(x, t);
  }

  /** Which angles each special case sets to zero, and that every angle
      Cart2Kep computes is in [0, 2 pi] and past pi only when its sign test
      was negative. */
  lemma {:induction false} Cart2KepAngleRules(o: OrbitVectors, t: Trig)
    requires o.Valid() && AcosInRange(t)
    ensures var (aop, raan, ta) := Cart2KepAngles(o, t);
      (Cart2KepCase(o.inc, o.ecc) == EllipticEquatorial ==> raan == 0.0) &&
      (Cart2KepCase(o.inc, o.ecc) == CircularInclined ==> aop == 0.0) &&
      (Cart2KepCase(o.inc, o.ecc) == CircularEquatorial ==> aop == 0.0 && raan == 0.0) &&
      0.0 <= aop <= TwoPi && 0.0 <= raan <= TwoPi && 0.0 <= ta <= TwoPi
    ensures Cart2KepCase(o.inc, o.ecc) == CircularEquatorial ==>
      (Cart2KepAngles(o, t).2 > Pi ==> o.rv[1] < 0.0)
    ensures Cart2KepCase(o.inc, o.ecc) != CircularEquatorial && Cart2KepCase(o.inc, o.ecc) != CircularInclined ==>
      (Cart2KepAngles(o, t).2 > Pi ==> Dot3(o.rv, o.vv) < 0.0)
  {
    match Cart2KepCase(o.inc, o.ecc)
    case EllipticEquatorial =>
      ReflectedHalf(t.div(o.ev[0], o.ecc), o.ev[1] < 0.0, t);
      ReflectedHalf(t.div(t.div(Dot3(o.ev, o.rv), o.ecc), o.r), Dot3(o.rv, o.vv) < 0.0, t);
    case CircularInclined =>
      ReflectedHalf(t.div(o.nv[0], o.n), o.nv[1] < 0.0, t);
      ReflectedHalf(Dot3(Over(o.nv, o.n, t), Over(o.rv, o.r, t)), o.rv[2] < 0.0, t);
    case CircularEquatorial =>
      ReflectedHalf(t.div(o.rv[0], o.r), o.rv[1] < 0.0, t);
    case NotSpecial =>
      ReflectedHalf(Dot3(Over(o.nv, o.n, t), Over(o.ev, o.ecc, t)), o.ev[2] < 0.0, t);
      ReflectedHalf(t.div(o.nv[0], o.n), o.nv[1] < 0.0, t);
      ReflectedHalf(Dot3(Over(o.ev, o.ecc, t), Over(o.rv, o.r, t)), Dot3(o.rv, o.vv) < 0.0, t);
  }

  // ---------------------------------------------------------------------
  // skew

  /** The 3x3 skew-symmetric matrix of the first three entries of v. */
  function Skew(v: seq<real>): (m: Matrix)
    requires |v| >= 3
    ensures IsRect(m, 3, 3)
  {
    [[0.0, -v[2], v[1]], [v[2], 0.0, -v[0]], [-v[1], v[0], 0.0]]
  }

  function Cross(v: seq<real>, w: seq<real>): (c: seq<real>)
    requires |v| >= 3 && |w| >= 3
    ensures |c| == 3
  {
    [v[1] * w[2] - v[2] * w[1], v[2] * w[0] - v[0] * w[2], v[0] * w[1] - v[1] * w[0]]
  }

  /** The product of a 3x3 matrix and a 3-vector. */
  function Apply3(m: Matrix, w: seq<real>): (r: seq<real>)
    requires IsRect(m, 3, 3) && |w| >= 3
    ensures |r| == 3
  {
    [Dot3(m[0], w[..3]), Dot3(m[1], w[..3]), Dot3(m[2], w[..3])]
  }

  /** skew(v) is antisymmetric with a zero diagonal, and multiplying by it
      is the cross product with v; in particular it sends v to zero. */
  lemma SkewIsCrossProduct(v: seq<real>, w: seq<real>)
    requires |v| >= 3 && |w| >= 3
    ensures forall i, j :: 0 <= i < 3 && 0 <= j < 3 ==> Skew(v)[i][j] == -Skew(v)[j][i]
    ensures forall i :: 0 <= i < 3 ==> Skew(v)[i][i] == 0.0
    ensures Apply3(Skew(v), w) == Cross(v, w)
    ensures Apply3(Skew(v), v) == [0.0, 0.0, 0.0]
  {
    assert w[..3] == [w[0], w[1], w[2]];
    assert v[..3] == [v[0], v[1], v[2]];
    var m := Skew(v);
    assert Dot3(m[0], w[..3]) == v[1] * w[2] - v[2] * w[1];
    assert Dot3(m[1], w[..3]) == v[2] * w[0] - v[0] * w[2];
    assert Dot3(m[2], w[..3]) == v[0] * w[1] - v[1] * w[0];
    assert Dot3(m[0], v[..3]) == 0.0;
    assert Dot3(m[1], v[..3]) == 0.0;
    assert Dot3(m[2], v[..3]) == 0.0;
  }

  // ---------------------------------------------------------------------
  // TA2EA

  /** How many turns of 2 pi a negative angle is short of zero. */
  function Turns(x: real): int
  {
    if x >= 0.0 then 0 else -((x / TwoPi).Floor)
  }

  /** One more turn moves the quotient by one. */
  lemma QuotientStep(x: real)
    ensures (x + TwoPi) / TwoPi == x / TwoPi + 1.0
  {
    var q := x / TwoPi;
    var p := (x + TwoPi) / TwoPi;
    assert q * TwoPi == x;
    assert p * TwoPi == x + TwoPi;
    var d := p - q - 1.0;
    assert d * TwoPi == p * TwoPi - q * TwoPi - TwoPi;
    assert d * TwoPi == 0.0;
  }

  lemma TurnsDecrease(x: real)
    requires x < 0.0
    ensures 0 <= Turns(x + TwoPi) < Turns(x)
    ensures x + TwoPi < 0.0 ==> Turns(x + TwoPi) == Turns(x) - 1
    ensures x + TwoPi >= 0.0 ==> Turns(x) == 1
  {
    QuotientStep(x);
    assert x / TwoPi < 0.0;
    if x + TwoPi >= 0.0 {
      assert x / TwoPi + 1.0 >= 0.0 by {
        assert (x + TwoPi) / TwoPi >= 0.0;
      }
    } else {
      assert (x + TwoPi) / TwoPi < 0.0;
    }
  }

  /** The angle TA2EA's loop leaves: 2 pi added until it is not negative. */
  function Wrapped(x: real): real
    decreases Turns(x)
  {
    if x >= 0.0 then x else TurnsDecrease(x); Wrapped(x + TwoPi)
  }

  /** The wrapped angle is not negative, is the input when that already
      was, lies below 2 pi otherwise, and differs from the input by whole
      turns: it is the input modulo 2 pi. */
  lemma {:induction false} WrappedIsModulo(x: real)
    ensures Wrapped(x) >= 0.0
    ensures x >= 0.0 ==> Wrapped(x) == x
    ensures x < 0.0 ==> Wrapped(x) < TwoPi
    ensures x < 0.0 ==> Wrapped(x) == x - (x / TwoPi).Floor as real * TwoPi
    decreases Turns(x)
  {
    if x < 0.0 {
      TurnsDecrease(x);
      WrappedIsModulo(x + TwoPi);
    }
  }

  /** TA2EA: the eccentric anomaly atan2 gives, moved into [0, 2 pi) by
      adding 2 pi while it is negative. */
  method TA2EA(ta: real, ecc: real, t: Trig) returns (ea: real)
    ensures ea == Wrapped(t.eccentricAnomaly(ta, ecc))
    ensures ea >= 0.0
  {
    ea := t.eccentricAnomaly(ta, ecc);
    ghost var start := ea;
    while ea < 0.0
      invariant Wrapped(ea) == Wrapped(start)
      decreases Turns(ea)
    {
      TurnsDecrease(ea);
      ea := ea + TwoPi;
    }
    WrappedIsModulo(ea);
  }
}
