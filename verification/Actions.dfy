/**
 The trust boundary for actions: whatever a controller returns, NaN and infinities included,
 the world sees a finite action within the announced bounds.
 */
module Actions {
  import opened Wrappers
  import N = Negotiation

  const TAU := 6.28318530

  /** `length` is the length of a finite force, as its square root gives it. */
  datatype Force = Force(x: Float, y: Float, length: real)

  datatype ActionTensor = ActionTensor(
    force: Force, torque: Float, clamp: Float, fabricate: Float, frequency: Float, phase: Float)

  const NO_FORCE := Force(Finite(0.0), Finite(0.0), 0.0)

  const NO_ACTION := ActionTensor(NO_FORCE, Finite(0.0), Finite(0.0), Finite(0.0), Finite(0.0), Finite(0.0))

  function OrZero(x: Float): real {
    if x.Finite? then x.value else 0.0
  }

  function Clamped(x: real, low: real, high: real): real
    requires low <= high
  {
    if x < low then low else if x > high then high else x
  }

  /** `rem_euclid`. */
  function Remainder(x: real, m: real): real
    requires m > 0.0
  {
    x - m * (x / m).Floor as real
  }

  predicate FiniteForce(f: Force) {
    f.x.Finite? && f.y.Finite?
  }

  predicate IsLength(x: real, y: real, length: real) {
    length >= 0.0 && length * length == x * x + y * y
  }

  /** The length is what the square root gives. */
  predicate Measured(f: Force) {
    FiniteForce(f) ==> IsLength(f.x.value, f.y.value, f.length)
  }

  /** `clamp_length_max` to a unit force, zero if the force is not finite. */
  function SafeForce(f: Force): Force {
    if !FiniteForce(f) then NO_FORCE
    else if f.length > 1.0 then Force(Finite(f.x.value * (1.0 / f.length)), Finite(f.y.value * (1.0 / f.length)), 1.0)
    else f
  }

  /** `ActionTensor::sanitize`. */
  function Sanitize(a: ActionTensor): ActionTensor {
    ActionTensor(SafeForce(a.force),
                 Finite(Clamped(OrZero(a.torque), -1.0, 1.0)), Finite(Clamped(OrZero(a.clamp), 0.0, 1.0)),
                 Finite(Clamped(OrZero(a.fabricate), 0.0, 1.0)), Finite(Clamped(OrZero(a.frequency), -16.0, 16.0)),
                 Finite(Remainder(OrZero(a.phase), TAU)))
  }

  /** What the client is willing to send: only finite values. */
  predicate AllFinite(a: ActionTensor) {
    && FiniteForce(a.force) && a.torque.Finite? && a.clamp.Finite?
    && a.fabricate.Finite? && a.frequency.Finite? && a.phase.Finite?
  }

  predicate Between(x: Float, low: real, high: real) {
    x.Finite? && low <= x.value <= high
  }

  /** Finite, no more than unit force, and every other component within its band. */
  predicate Sane(a: ActionTensor) {
    UnitForce(a.force) && InBands(a)
  }

  predicate UnitForce(f: Force) {
    FiniteForce(f) && f.x.value * f.x.value + f.y.value * f.y.value <= 1.0
  }

  predicate InBands(a: ActionTensor) {
    && Between(a.torque, -1.0, 1.0) && Between(a.clamp, 0.0, 1.0) && Between(a.fabricate, 0.0, 1.0)
    && Between(a.frequency, -16.0, 16.0) && Between(a.phase, 0.0, TAU) && a.phase.value < TAU
  }

  lemma RemainderBounds(x: real, m: real)
    requires m > 0.0
    ensures 0.0 <= Remainder(x, m) < m
    ensures 0.0 <= x < m ==> Remainder(x, m) == x
  {
    var q := x / m;
    assert q * m == x;
    RemainderOf(x, m, q, q.Floor as real);
    if 0.0 <= x < m { UnitQuotient(x, m); }
  }

  lemma UnitQuotient(x: real, m: real)
    requires 0.0 <= x < m
    ensures 0.0 <= x / m < 1.0
  {
  }

  lemma RemainderOf(x: real, m: real, q: real, f: real)
    requires m > 0.0 && q * m == x && f <= q < f + 1.0
    ensures 0.0 <= x - m * f < m
  {
    var over, under := q - f, f + 1.0 - q;
    assert over * m >= 0.0 && under * m > 0.0;
    assert over * m == x - f * m && under * m == f * m + m - x;
  }

  lemma SafeForceExact(f: Force)
    requires Measured(f)
    ensures UnitForce(SafeForce(f)) && Measured(SafeForce(f))
    ensures SafeForce(f) == f <==> UnitForce(f)
  {
    if FiniteForce(f) && f.length > 1.0 { Normalized(f.x.value, f.y.value, f.length, 1.0 / f.length); }
  }

  /** A force longer than a unit, divided by its length. */
  lemma Normalized(x: real, y: real, length: real, s: real)
    requires IsLength(x, y, length) && length > 1.0 && s * length == 1.0
    ensures (x * s) * (x * s) + (y * s) * (y * s) == 1.0 < x * x + y * y
  {
    assert (x * s) * (x * s) + (y * s) * (y * s) == (x * x + y * y) * (s * s);
    assert (length * length) * (s * s) == (s * length) * (s * length);
  }

  lemma BandsExact(a: ActionTensor)
    ensures InBands(Sanitize(a))
    ensures Sanitize(a) == a.(force := SafeForce(a.force)) <==> InBands(a)
  {
    RemainderBounds(OrZero(a.phase), TAU);
  }

  /** The sanitized action is sane, and exactly the actions that are sane already are left as they are. */
  lemma SanitizeIsExact(a: ActionTensor)
    requires Measured(a.force)
    ensures Sane(Sanitize(a)) && Measured(Sanitize(a).force)
    ensures Sanitize(a) == a <==> Sane(a)
  {
    SafeForceExact(a.force);
    BandsExact(a);
    SameParts(a, Sanitize(a));
  }

  /** A value is kept within its band, and else is the bound it lies beyond; what is no number is zero. */
  predicate KeptWithin(x: Float, y: Float, low: real, high: real) {
    && y.Finite? && low <= y.value <= high
    && (x.Finite? && x.value < low ==> y.value == low)
    && (x.Finite? && x.value > high ==> y.value == high)
    && (x.Finite? && low <= x.value <= high ==> y == x)
    && (!x.Finite? ==> y.value == 0.0)
  }

  predicate ScaledBy(f: Force, g: Force, k: real)
    requires FiniteForce(f)
  {
    g.x == Finite(f.x.value * k) && g.y == Finite(f.y.value * k) && g.length == f.length * k
  }

  /** The same direction, shortened to a unit if it is longer; no force at all if it is no number. */
  ghost predicate KeptShort(f: Force, g: Force) {
    if FiniteForce(f) then
      if f.length <= 1.0 then g == f else g.length == 1.0 && exists k :: 0.0 < k <= 1.0 && ScaledBy(f, g, k)
    else g.x == Finite(0.0) && g.y == Finite(0.0) && g.length == 0.0
  }

  predicate TurnsApart(x: real, y: real, turns: int) {
    x == y + turns as real * 6.28318530
  }

  /** The same angle: a whole number of turns apart. */
  ghost predicate SameAngle(x: Float, y: Float) {
    && y.Finite? && 0.0 <= y.value < 6.28318530
    && (x.Finite? ==> exists turns :: TurnsApart(x.value, y.value, turns))
    && (!x.Finite? ==> y.value == 0.0)
  }

  /** Component by component: what becomes of an action that is out of its bands, or no number. */
  lemma SanitizeKeeps(a: ActionTensor)
    requires Measured(a.force)
    ensures var b := Sanitize(a);
            && KeptShort(a.force, b.force) && SameAngle(a.phase, b.phase)
            && KeptWithin(a.torque, b.torque, -1.0, 1.0) && KeptWithin(a.clamp, b.clamp, 0.0, 1.0)
            && KeptWithin(a.fabricate, b.fabricate, 0.0, 1.0) && KeptWithin(a.frequency, b.frequency, -16.0, 16.0)
  {
    ForceKept(a.force);
    AngleKept(a.phase);
  }

  lemma ForceKept(f: Force)
    requires Measured(f)
    ensures KeptShort(f, SafeForce(f))
  {
    if FiniteForce(f) && f.length > 1.0 {
      Shortens(f.length, 1.0 / f.length);
      assert ScaledBy(f, SafeForce(f), 1.0 / f.length);
    }
  }

  lemma Shortens(length: real, k: real)
    requires length > 1.0 && k * length == 1.0
    ensures 0.0 < k <= 1.0
  {
  }

  lemma AngleKept(x: Float)
    ensures SameAngle(x, Finite(Remainder(OrZero(x), TAU)))
  {
    RemainderBounds(OrZero(x), TAU);
    var turns := (OrZero(x) / TAU).Floor;
    assert TurnsApart(OrZero(x), Remainder(OrZero(x), TAU), turns);
  }

  lemma SameParts(a: ActionTensor, b: ActionTensor)
    ensures b == a <==> b.force == a.force && b == a.(force := b.force)
  {
  }

  /** The components in the order of the wire. */
  function ValuesOf(a: ActionTensor): (values: seq<Float>)
    ensures |values| == N.ACTION_STRIDE
  {
    [a.force.x, a.force.y, a.torque, a.clamp, a.fabricate, a.frequency, a.phase]
  }

  /**
   What the world acts on is exactly what lies within the bounds that the session metadata
   announces, with a force of at most a unit and less than a full turn.
   */
  lemma WithinAnnouncedBounds(a: ActionTensor, config: N.Config, tick: nat)
    ensures var m := N.MetadataOf(config, tick);
            Sane(a) <==>
              && UnitForce(a.force) && a.phase != Finite(TAU)
              && forall i | 0 <= i < N.ACTION_STRIDE :: Between(ValuesOf(a)[i], m.actionMin[i], m.actionMax[i])
  {
    var m := N.MetadataOf(config, tick);
    var values := ValuesOf(a);
    if UnitForce(a.force) { UnitSides(a.force.x.value, a.force.y.value); }
    if forall i | 0 <= i < N.ACTION_STRIDE :: Between(values[i], m.actionMin[i], m.actionMax[i]) {
      assert Between(values[2], m.actionMin[2], m.actionMax[2]) && Between(values[3], m.actionMin[3], m.actionMax[3]);
      assert Between(values[4], m.actionMin[4], m.actionMax[4]) && Between(values[5], m.actionMin[5], m.actionMax[5]);
      assert Between(values[6], m.actionMin[6], m.actionMax[6]);
    }
  }

  lemma UnitSides(x: real, y: real)
    requires x * x + y * y <= 1.0
    ensures -1.0 <= x <= 1.0 && -1.0 <= y <= 1.0
  {
  }
}
