/** The escape-time evaluator shared by both variants: the orbit of 0 under
    z := z * z + c, the count the C# loop returns, and the main-cardioid
    shortcut of the job variant. */
module EscapeTime {
  import opened Numeric
  import opened ComplexPlane

  /** z_k: the value of z after k updates z := z * z + c, starting from 0. */
  function Orbit(c: Complex, k: nat): Complex {
    if k == 0 then ZERO else Step(Orbit(c, k - 1), c)
  }

  /** How many times `for (int i = 0; i != maxIterations; i++)` runs when the
      body never returns. The counter is a 32-bit `int`: a non-negative bound
      is met after `maxIterations` steps, a negative one only after the counter
      has wrapped past 2^31 - 1, i.e. after 2^32 + maxIterations steps. */
  function Trips(maxIterations: Int32): (t: nat)
    ensures t < TWO_TO_32
    ensures Wrap32(t) == maxIterations
    ensures forall k :: 0 <= k < t ==> Wrap32(k) != maxIterations
    ensures maxIterations >= 0 ==> t == maxIterations
  {
    maxIterations % TWO_TO_32
  }

  /** The first k in [from, t) whose update escapes (|z_{k+1}| > 2), or t when
      none does. */
  function FirstEscape(c: Complex, from: nat, t: nat): (k: nat)
    requires from <= t
    ensures from <= k <= t
    decreases t - from
  {
    if from == t then t
    else if EscapesAt(c, from) then from
    else FirstEscape(c, from + 1, t)
  }

  /** The loop's view of the same search: from the current z, with k updates
      done, the index of the first update (k or later, before t) that takes z
      outside radius 2, or t. */
  function EscapeFrom(c: Complex, z: Complex, k: nat, t: nat): (n: nat)
    requires k <= t
    ensures k <= n <= t
    decreases t - k
  {
    if k == t then t
    else if Escaped(Step(z, c)) then k
    else EscapeFrom(c, Step(z, c), k + 1, t)
  }

  /** Started on the orbit, the loop's search finds the first escape. */
  lemma {:induction false} EscapeFromOrbit(c: Complex, k: nat, t: nat)
    requires k <= t
    ensures EscapeFrom(c, Orbit(c, k), k, t) == FirstEscape(c, k, t)
    decreases t - k
  {
    if k < t && !EscapesAt(c, k) {
      EscapeFromOrbit(c, k + 1, t);
    }
  }

  /** What the scalar `MandelbrotFunction` returns for c: the index of the
      first escaping iteration, or `maxIterations` when the loop runs out.
      Both counters are C# `int`s, hence the wrap. */
  function EscapeCount(c: Complex, maxIterations: Int32): (n: Int32)
    ensures 0 <= maxIterations ==> 0 <= n <= maxIterations
  {
    Wrap32(FirstEscape(c, 0, Trips(maxIterations)))
  }

  /** The job variant's fast reject: with q = (x - 1/4)^2 + y^2, the point is
      taken to lie in the main cardioid when q(q + (x - 1/4)) < y^2 / 4. */
  predicate InCardioid(c: Complex) {
    var q := (c.re - 0.25) * (c.re - 0.25) + c.im * c.im;
    q * (q + (c.re - 0.25)) < 0.25 * (c.im * c.im)
  }

  /** What the job `Mandelbrot.Execute` stores for c. */
  function JobEscapeCount(c: Complex, maxIterations: Int32): (n: Int32)
    ensures 0 <= maxIterations ==> 0 <= n <= maxIterations
  {
    if InCardioid(c) then maxIterations else EscapeCount(c, maxIterations)
  }

  /** The update with index j (the (j+1)-th, counting from 1) takes z outside
      radius 2. */
  predicate EscapesAt(c: Complex, j: nat) {
    Escaped(Orbit(c, j + 1))
  }

  /** FirstEscape really is the first escape: every update before it stays
      within radius 2, and the one at it (if any) leaves. */
  lemma {:induction false} FirstEscapeIsFirst(c: Complex, from: nat, t: nat)
    requires from <= t
    ensures var k := FirstEscape(c, from, t);
      && (forall j :: from <= j < k ==> !EscapesAt(c, j))
      && (k < t ==> EscapesAt(c, k))
    decreases t - from
  {
    if from < t && !EscapesAt(c, from) {
      FirstEscapeIsFirst(c, from + 1, t);
    }
  }

  /** For a non-negative cap the count is the number of updates that stayed
      within radius 2 before the first one that did not: z_1 .. z_n are inside,
      and if n < maxIterations then z_{n+1} is outside. */
  lemma EscapeCountIsFirstEscape(c: Complex, maxIterations: Int32)
    requires maxIterations >= 0
    ensures var n := EscapeCount(c, maxIterations);
      && 0 <= n <= maxIterations
      && (forall j :: 0 <= j < n ==> !EscapesAt(c, j))
      && (n < maxIterations ==> EscapesAt(c, n))
  {
    FirstEscapeIsFirst(c, 0, Trips(maxIterations));
  }

  /** The first-escape description determines the count: any n with that
      property is EscapeCount. */
  lemma EscapeCountUnique(c: Complex, maxIterations: Int32, n: int)
    requires 0 <= n <= maxIterations
    requires forall j :: 0 <= j < n ==> !EscapesAt(c, j)
    requires n < maxIterations ==> EscapesAt(c, n)
    ensures n == EscapeCount(c, maxIterations)
  {
    EscapeCountIsFirstEscape(c, maxIterations);
  }

  /** For every cap, negative ones included, the count equals the cap exactly
      when no update escapes during the loop's Trips(cap) steps. A count equal
      to the cap is what the colour stage renders as interior. */
  lemma InteriorIffNoEscape(c: Complex, maxIterations: Int32)
    ensures EscapeCount(c, maxIterations) == maxIterations
        <==> forall j :: 0 <= j < Trips(maxIterations) ==> !EscapesAt(c, j)
  {
    var t := Trips(maxIterations);
    var k := FirstEscape(c, 0, t);
    FirstEscapeIsFirst(c, 0, t);
    if k < t {
      assert Wrap32(k) != maxIterations;
      assert EscapesAt(c, k);
    }
  }

  /** The two variants agree wherever the cardioid test fails; where they
      differ, the job variant took the shortcut and returned the cap. */
  lemma JobDiffersOnlyByShortcut(c: Complex, maxIterations: Int32)
    ensures !InCardioid(c) ==> JobEscapeCount(c, maxIterations) == EscapeCount(c, maxIterations)
    ensures JobEscapeCount(c, maxIterations) != EscapeCount(c, maxIterations)
      ==> InCardioid(c) && JobEscapeCount(c, maxIterations) == maxIterations
  {
  }

  lemma {:induction false} OrbitOfOrigin(k: nat)
    ensures Orbit(ZERO, k) == ZERO
  {
    if k > 0 {
      OrbitOfOrigin(k - 1);
    }
  }

  /** c = 0 never escapes, so the scalar variant returns the cap, whatever it
      is; the job variant gets there through the cardioid shortcut. */
  lemma OriginIsInterior(maxIterations: Int32)
    ensures EscapeCount(ZERO, maxIterations) == maxIterations
    ensures InCardioid(ZERO) && JobEscapeCount(ZERO, maxIterations) == maxIterations
  {
    OriginNeverEscapes(maxIterations);
    OriginInCardioid();
  }

  lemma OriginNeverEscapes(maxIterations: Int32)
    ensures EscapeCount(ZERO, maxIterations) == maxIterations
  {
    OriginSearchRunsOut(0, Trips(maxIterations));
  }

  /** No update of the orbit of 0 leaves radius 2. */
  lemma NoEscapeAtOrigin(j: nat)
    ensures !EscapesAt(ZERO, j)
  {
    OrbitOfOrigin(j + 1);
  }

  /** The search for an escaping update of the orbit of 0 always runs to its
      limit. */
  lemma {:induction false} OriginSearchRunsOut(from: nat, t: nat)
    requires from <= t
    ensures FirstEscape(ZERO, from, t) == t
    decreases t - from
  {
    if from < t {
      NoEscapeAtOrigin(from);
      OriginSearchRunsOut(from + 1, t);
    }
  }

  lemma OriginInCardioid()
    ensures InCardioid(ZERO)
  {
  }

  /** c = 2: z_1 = 2 is not strictly outside radius 2, z_2 = 6 is; the loop
      returns 1. */
  lemma TwoEscapesAtSecondUpdate(maxIterations: Int32)
    requires maxIterations >= 2
    ensures EscapeCount(Complex(2.0, 0.0), maxIterations) == 1
    ensures JobEscapeCount(Complex(2.0, 0.0), maxIterations) == 1
  {
    TwoOrbit(Complex(2.0, 0.0));
    SecondUpdateEscapes(Complex(2.0, 0.0), maxIterations);
    TwoOutsideCardioid();
  }

  lemma SecondUpdateEscapes(c: Complex, maxIterations: Int32)
    requires maxIterations >= 2
    requires !EscapesAt(c, 0) && EscapesAt(c, 1)
    ensures EscapeCount(c, maxIterations) == 1
  {
    EscapeCountUnique(c, maxIterations, 1);
  }

  /** The first update from z = 0 gives c. */
  lemma StepFromZero(c: Complex)
    ensures Step(ZERO, c) == c
  {
    assert Mul(ZERO, ZERO) == ZERO;
    assert Add(ZERO, c) == c;
  }

  lemma OrbitOne(c: Complex)
    ensures Orbit(c, 1) == c
  {
    assert Orbit(c, 0) == ZERO;
    assert Orbit(c, 1) == Step(ZERO, c);
    StepFromZero(c);
  }

  lemma OrbitTwo(c: Complex)
    ensures Orbit(c, 2) == Step(c, c)
  {
    assert Orbit(c, 2) == Step(Orbit(c, 1), c);
    OrbitOne(c);
  }

  /** The first update escapes exactly when c lies outside radius 2. */
  lemma FirstTest(c: Complex)
    ensures EscapesAt(c, 0) <==> Escaped(c)
  {
    OrbitOne(c);
  }

  /** The second update escapes exactly when c * c + c lies outside radius 2. */
  lemma SecondTest(c: Complex)
    ensures EscapesAt(c, 1) <==> Escaped(Step(c, c))
  {
    OrbitTwo(c);
  }

  lemma TwoOrbit(c: Complex)
    requires c == Complex(2.0, 0.0)
    ensures !EscapesAt(c, 0) && EscapesAt(c, 1)
  {
    FirstTest(c);
    SecondTest(c);
    TwoSquared(c);
  }

  lemma TwoSquared(c: Complex)
    requires c == Complex(2.0, 0.0)
    ensures !Escaped(c) && Escaped(Step(c, c))
  {
    assert Step(c, c) == Complex(6.0, 0.0);
  }

  lemma TwoOutsideCardioid()
    ensures !InCardioid(Complex(2.0, 0.0))
  {
  }

  /** The corner of the start-up view, c = -2 - 1.25i, lies outside the
      cardioid and escapes at the first update. */
  lemma StartCornerEscapesAtOnce(maxIterations: Int32)
    requires maxIterations >= 1
    ensures !InCardioid(Complex(-2.0, -1.25))
    ensures JobEscapeCount(Complex(-2.0, -1.25), maxIterations) == 0
  {
    var c := Complex(-2.0, -1.25);
    StartCornerOrbit(c);
    EscapeCountUnique(c, maxIterations, 0);
    StartCornerOutsideCardioid();
  }

  lemma StartCornerOrbit(c: Complex)
    requires c == Complex(-2.0, -1.25)
    ensures EscapesAt(c, 0)
  {
    FirstTest(c);
    assert NormSq(c) == 5.5625;
  }

  lemma StartCornerOutsideCardioid()
    ensures !InCardioid(Complex(-2.0, -1.25))
  {
  }
}
