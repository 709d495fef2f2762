/**
 An object that pulses to its own tempo: the player character and every enemy.

 Each visual tick the item reads the beat clock, turns it into its phase
 within one four-beat bar of its own tempo, and maps that phase through a
 piecewise-linear envelope onto its scale or its opacity. A click on a
 selectable item whose tempo equals the player's current tempo defeats it.

 The in-game scene's `CurrentBPM` and `Attacking` are parameters here, and
 the scene's `Attack(item, hit)` call is returned as an event. Float
 arithmetic is idealised as exact real arithmetic.
 */
module BeatItem {

  /** The kind of pulse an item shows. `Invalid` is only ever an argument
      meaning "keep the current kind". */
  datatype AnimationType = Invalid | None | Scale | Alpha

  /** Field initialisers of the component. */
  const DefaultBpm: int := 120
  const DefaultAnimationType: AnimationType := Scale

  /** Milliseconds in one four-beat bar at one beat per minute: 4 * 60000. */
  const BarMillisecondsAtOneBpm: nat := 4 * 60000

  datatype Color = Color(r: real, g: real, b: real, a: real)

  const White: Color := Color(1.0, 1.0, 1.0, 1.0)

  /** The observable state of one item. `selectable` is the graphic's
      `raycastTarget`, `active` the game object's active flag, and `scale`
      the uniform local scale of the animated transform. */
  datatype Item = Item(
    bpm: int,
    animationType: AnimationType,
    selectable: bool,
    active: bool,
    scale: real,
    color: Color)

  /** What a click asks of the in-game scene: nothing, or `Attack(item, hit)`. */
  datatype AttackRequest = NoAttack | Attack(hit: bool)

  datatype ClickResult = ClickResult(item: Item, request: AttackRequest)

  // ---------------------------------------------------------------------------
  // Phase within the bar
  // ---------------------------------------------------------------------------

  /** Truncation toward zero: the integral quotient inside C#'s floating-point
      `%`, which rounds the quotient toward zero rather than down. */
  function Trunc(x: real): (n: int)
    ensures 0.0 <= x ==> n as real <= x < n as real + 1.0
    ensures x < 0.0 ==> n as real - 1.0 < x <= n as real
  {
    if x >= 0.0 then x.Floor else -((-x).Floor)
  }

  function Abs(x: real): real {
    if x < 0.0 then -x else x
  }

  predicate IsInteger(x: real) {
    x.Floor as real == x
  }

  /** Dividing by a positive number keeps signs and maps (-b, b) into (-1, 1). */
  lemma DivPositive(a: real, b: real)
    requires 0.0 < b
    ensures a < b ==> a / b < 1.0
    ensures -b < a ==> -1.0 < a / b
    ensures 0.0 <= a ==> 0.0 <= a / b
    ensures a <= 0.0 ==> a / b <= 0.0
  {
    var q := a / b;
    assert q * b == a;
    assert q >= 1.0 ==> q * b >= 1.0 * b;
    assert q <= -1.0 ==> q * b <= -1.0 * b;
    assert q < 0.0 ==> q * b < 0.0;
    assert q > 0.0 ==> q * b > 0.0;
  }

  /** Scaling by a factor in [0, 1) stays between 0 and the scaled value. */
  lemma MulBelow(y: real, g: real)
    requires 0.0 <= g < 1.0
    ensures 0.0 < y ==> 0.0 <= y * g < y
    ensures y < 0.0 ==> y < y * g <= 0.0
  {
  }

  /** A factor strictly between -1 and 1 shrinks a non-zero value. */
  lemma ScaledFractionBelow(y: real, g: real)
    requires y != 0.0 && -1.0 < g < 1.0
    ensures Abs(y * g) < Abs(y)
  {
  }

  /** The remainder `y * g`, where `g` is `x / y` with its integral part
      removed, has the sign of `x` and is smaller than `y` in size. */
  lemma RemainderOfFraction(x: real, y: real, g: real, r: real)
    requires y != 0.0 && r == y * g && -1.0 < g < 1.0
    requires 0.0 <= x / y ==> 0.0 <= g
    requires x / y <= 0.0 ==> g <= 0.0
    ensures 0.0 <= x ==> 0.0 <= r
    ensures x <= 0.0 ==> r <= 0.0
    ensures Abs(r) < Abs(y)
  {
    ScaledFractionBelow(y, g);
    if y > 0.0 {
      DivPositive(x, y);
      MulBelow(y, Abs(g));
    } else {
      DivPositive(-x, -y);
      assert x / y == (-x) / (-y);
      MulBelow(y, Abs(g));
    }
    assert g < 0.0 ==> y * g == -(y * Abs(g));
  }

  /** Removing `q` copies of `y` from `x` leaves `y` times the rest of the
      quotient, and removes exactly `q` when divided by `y`. */
  lemma RemainderAsFraction(x: real, y: real, q: int)
    requires y != 0.0
    ensures x - y * (q as real) == y * (x / y - q as real)
    ensures IsInteger((x - (x - y * (q as real))) / y)
  {
    assert y * (x / y) == x;
    assert x - (x - y * (q as real)) == y * (q as real);
    assert (y * (q as real)) / y == q as real;
    assert (q as real).Floor == q;
  }

  /** The C# floating-point remainder `x % y`: the sign follows the dividend,
      the magnitude stays below the divisor's, and what is removed is a whole
      multiple of the divisor. */
  function FloatRemainder(x: real, y: real): (r: real)
    requires y != 0.0
    ensures 0.0 <= x ==> 0.0 <= r
    ensures x <= 0.0 ==> r <= 0.0
    ensures Abs(r) < Abs(y)
    ensures IsInteger((x - r) / y)
  {
    var n := Trunc(x / y);
    var r := x - y * (n as real);
    RemainderAsFraction(x, y, n);
    RemainderOfFraction(x, y, x / y - n as real, r);
    r
  }

  /** `4.0f * 60000.0f / bpm`, the duration of one bar in milliseconds:
      `bpm` bars of it make 240000 ms, and it has the tempo's sign. */
  function BarDurationMilliseconds(bpm: int): (bar: real)
    requires bpm != 0
    ensures bar * (bpm as real) == BarMillisecondsAtOneBpm as real
    ensures 0 < bpm <==> 0.0 < bar
  {
    (BarMillisecondsAtOneBpm as real) / (bpm as real)
  }

  /** A quotient whose numerator is smaller than its denominator in size lies
      strictly between -1 and 1, with the sign of the product of the signs. */
  lemma QuotientBelowOne(a: real, b: real)
    requires b != 0.0 && Abs(a) < Abs(b)
    ensures -1.0 < a / b < 1.0
    ensures (0.0 <= a && 0.0 < b) || (a <= 0.0 && b < 0.0) ==> 0.0 <= a / b
    ensures (0.0 <= a && b < 0.0) || (a <= 0.0 && 0.0 < b) ==> a / b <= 0.0
  {
    if b > 0.0 {
      DivPositive(a, b);
    } else {
      DivPositive(-a, -b);
      assert a / b == (-a) / (-b);
    }
  }

  /** The phase `rate` computed in `Update`: the beat time's remainder modulo
      the bar duration, divided by the bar duration. For `bpm == 0` the float
      bar duration is +infinity, the remainder is the beat time itself and the
      quotient is 0. The phase lies strictly between -1 and 1 and is
      non-negative when beat time and tempo have the same sign and
      non-positive when their signs differ. */
  function Rate(beatTimeMs: int, bpm: int): (r: real)
    ensures bpm == 0 ==> r == 0.0
    ensures -1.0 < r < 1.0
    ensures (0 <= beatTimeMs && 0 < bpm) || (beatTimeMs <= 0 && bpm < 0) ==> 0.0 <= r
    ensures (0 <= beatTimeMs && bpm < 0) || (beatTimeMs <= 0 && 0 < bpm) ==> r <= 0.0
  {
    if bpm == 0 then 0.0
    else
      var bar := BarDurationMilliseconds(bpm);
      var rem := FloatRemainder(beatTimeMs as real, bar);
      QuotientBelowOne(rem, bar);
      rem / bar
  }

  /** The integer form of the phase numerator: the position within the bar
      measured in units of 1/240000 of a bar. */
  function PhaseNumerator(beatTimeMs: int, bpm: int): int {
    (beatTimeMs * bpm) % BarMillisecondsAtOneBpm
  }

  lemma FloorOfQuotient(n: int, d: int)
    requires 0 <= n && 0 < d
    ensures (n as real / d as real).Floor == n / d
  {
    var q, r := n / d, n % d;
    assert n == q * d + r;
    assert n as real / d as real == q as real + r as real / d as real;
    assert 0.0 <= r as real / d as real < 1.0;
  }

  lemma ProductAsReal(x: int, y: int)
    ensures (x * y) as real == (x as real) * (y as real)
  {
  }

  lemma DivideByBar(t: real, bar: real, n: real, m: real, b: real)
    requires b != 0.0 && m != 0.0 && bar == m / b && n == t * b
    ensures t / bar == n / m
  {
    assert t / (m / b) == t * b / m;
  }

  lemma SubtractMultipleThenDivide(x: real, y: real, q: real)
    requires y != 0.0
    ensures (x - y * q) / y == x / y - q
  {
  }

  lemma FractionalPart(n: int)
    requires 0 <= n
    ensures n as real / BarMillisecondsAtOneBpm as real - (n / BarMillisecondsAtOneBpm) as real
         == (n % BarMillisecondsAtOneBpm) as real / BarMillisecondsAtOneBpm as real
  {
  }

  /** For a non-negative beat time and a positive tempo the float formula is
      exactly `((beatTime * bpm) % 240000) / 240000`. */
  lemma RateExact(beatTimeMs: int, bpm: int)
    requires 0 <= beatTimeMs && 0 < bpm
    ensures Rate(beatTimeMs, bpm) == PhaseNumerator(beatTimeMs, bpm) as real / BarMillisecondsAtOneBpm as real
  {
    var t, b, m := beatTimeMs as real, bpm as real, BarMillisecondsAtOneBpm as real;
    var n := beatTimeMs * bpm;
    var bar := BarDurationMilliseconds(bpm);
    ProductAsReal(beatTimeMs, bpm);
    DivideByBar(t, bar, n as real, m, b);
    FloorOfQuotient(n, BarMillisecondsAtOneBpm);
    var q := n / BarMillisecondsAtOneBpm;
    assert Trunc(t / bar) == q;
    SubtractMultipleThenDivide(t, bar, q as real);
    FractionalPart(n);
  }

  /** For a positive tempo the phase lies in [0, 1). */
  lemma RateInUnitInterval(beatTimeMs: int, bpm: int)
    requires 0 <= beatTimeMs && 0 < bpm
    ensures 0.0 <= Rate(beatTimeMs, bpm) < 1.0
  {
    RateExact(beatTimeMs, bpm);
  }

  lemma ModShift(a: int, d: int)
    ensures (a + d) % BarMillisecondsAtOneBpm == a % BarMillisecondsAtOneBpm
        <==> d % BarMillisecondsAtOneBpm == 0
  {
  }

  /** Shifting the beat time by `d` milliseconds leaves the phase unchanged
      exactly when `d` is a whole number of bars, that is, when `d * bpm` is a
      multiple of 240000. */
  lemma RateShift(beatTimeMs: int, d: int, bpm: int)
    requires 0 <= beatTimeMs && 0 <= beatTimeMs + d && 0 < bpm
    ensures Rate(beatTimeMs + d, bpm) == Rate(beatTimeMs, bpm)
        <==> (d * bpm) % BarMillisecondsAtOneBpm == 0
  {
    RateExact(beatTimeMs, bpm);
    RateExact(beatTimeMs + d, bpm);
    assert (beatTimeMs + d) * bpm == beatTimeMs * bpm + d * bpm;
    ModShift(beatTimeMs * bpm, d * bpm);
  }

  /** When the bar lasts a whole number of milliseconds, the phase is periodic
      with the bar duration `4 * 60000 / bpm` as its period. */
  lemma RatePeriodicInBar(beatTimeMs: int, bpm: int)
    requires 0 <= beatTimeMs && 0 < bpm && BarMillisecondsAtOneBpm % bpm == 0
    ensures Rate(beatTimeMs + BarMillisecondsAtOneBpm / bpm, bpm) == Rate(beatTimeMs, bpm)
  {
    var p := BarMillisecondsAtOneBpm / bpm;
    assert p * bpm == BarMillisecondsAtOneBpm;
    RateShift(beatTimeMs, p, bpm);
  }

  /** The beat clock's four-minute loop is a whole number of bars at every
      integer tempo, so folding the clock never makes the phase jump. */
  lemma RateIgnoresLoopWrap(beatTimeMs: int, bpm: int)
    requires 0 <= beatTimeMs && 0 < bpm
    ensures Rate(beatTimeMs + BarMillisecondsAtOneBpm, bpm) == Rate(beatTimeMs, bpm)
  {
    assert (BarMillisecondsAtOneBpm * bpm) % BarMillisecondsAtOneBpm == 0;
    RateShift(beatTimeMs, BarMillisecondsAtOneBpm, bpm);
  }

  // ---------------------------------------------------------------------------
  // Envelopes
  // ---------------------------------------------------------------------------

  /** The quarter of the bar a phase falls in, by the comparisons both
      envelopes make. */
  function Quarter(rate: real): (q: nat)
    ensures q < 4
    ensures 0 < q ==> (q as real) / 4.0 <= rate
    ensures q < 3 ==> rate < (q as real + 1.0) / 4.0
  {
    if rate < 0.25 then 0
    else if rate < 0.5 then 1
    else if rate < 0.75 then 2
    else 3
  }

  /** The straight line through knot `q` at phase q/4 and knot `q + 1` at
      phase (q+1)/4. */
  function Lerp(knots: seq<real>, q: nat, rate: real): real
    requires q + 1 < |knots|
  {
    knots[q] + (knots[q + 1] - knots[q]) * (4.0 * rate - q as real)
  }

  lemma LerpEnds(knots: seq<real>, q: nat)
    requires q + 1 < |knots|
    ensures Lerp(knots, q, q as real / 4.0) == knots[q]
    ensures Lerp(knots, q, (q as real + 1.0) / 4.0) == knots[q + 1]
  {
  }

  lemma LerpBetween(knots: seq<real>, q: nat, rate: real, lo: real, hi: real)
    requires q + 1 < |knots|
    requires lo <= knots[q] <= hi && lo <= knots[q + 1] <= hi
    ensures (q as real) / 4.0 <= rate <= (q as real + 1.0) / 4.0 ==> lo <= Lerp(knots, q, rate) <= hi
  {
    if (q as real) / 4.0 <= rate <= (q as real + 1.0) / 4.0 {
      var s := 4.0 * rate - q as real;
      assert 0.0 <= s <= 1.0;
      assert Lerp(knots, q, rate) == (1.0 - s) * knots[q] + s * knots[q + 1];
      assert (1.0 - s) * (knots[q] - lo) >= 0.0 && s * (knots[q + 1] - lo) >= 0.0;
      assert (1.0 - s) * (hi - knots[q]) >= 0.0 && s * (hi - knots[q + 1]) >= 0.0;
    }
  }

  /** Scale at the start of each quarter and at the end of the bar. */
  const ScaleKnots: seq<real> := [1.0, 1.4, 1.0, 1.2, 1.0]

  /** Opacity at the start of each quarter and at the end of the bar. */
  const AlphaKnots: seq<real> := [0.0, 1.0, 0.5, 1.0, 0.0]

  /** The four branches of `SetLocalScale`, as written. */
  function ScaleSegment(q: nat, rate: real): real
    requires q < 4
  {
    if q == 0 then 1.0 + 0.40 * (rate / 0.25)
    else if q == 1 then 1.0 + 0.40 * ((0.5 - rate) / 0.25)
    else if q == 2 then 1.0 + 0.20 * ((rate - 0.5) / 0.25)
    else 1.0 + 0.20 * ((1.0 - rate) / 0.25)
  }

  /** The four branches of `SetAlpha`, as written. */
  function AlphaSegment(q: nat, rate: real): real
    requires q < 4
  {
    if q == 0 then 0.0 + 1.0 * (rate / 0.25)
    else if q == 1 then 0.5 + 0.5 * ((0.5 - rate) / 0.25)
    else if q == 2 then 0.5 + 0.5 * ((rate - 0.5) / 0.25)
    else 0.0 + 1.0 * ((1.0 - rate) / 0.25)
  }

  /** Each branch of `SetLocalScale` is the line between two adjacent knots. */
  lemma ScaleSegmentIsLerp(q: nat, rate: real)
    requires q < 4
    ensures ScaleSegment(q, rate) == Lerp(ScaleKnots, q, rate)
  {
  }

  /** Each branch of `SetAlpha` is the line between two adjacent knots. */
  lemma AlphaSegmentIsLerp(q: nat, rate: real)
    requires q < 4
    ensures AlphaSegment(q, rate) == Lerp(AlphaKnots, q, rate)
  {
  }

  /** `SetLocalScale`'s value for a phase. */
  function ScaleEnvelope(rate: real): (s: real)
    ensures 0.0 <= rate <= 1.0 ==> 1.0 <= s <= 1.4
  {
    var q := Quarter(rate);
    ScaleSegmentIsLerp(q, rate);
    LerpBetween(ScaleKnots, q, rate, 1.0, 1.4);
    ScaleSegment(q, rate)
  }

  /** `SetAlpha`'s value for a phase. */
  function AlphaEnvelope(rate: real): (a: real)
    ensures 0.0 <= rate <= 1.0 ==> 0.0 <= a <= 1.0
  {
    var q := Quarter(rate);
    AlphaSegmentIsLerp(q, rate);
    LerpBetween(AlphaKnots, q, rate, 0.0, 1.0);
    AlphaSegment(q, rate)
  }

  /** The scale envelope passes through 1.0, 1.4, 1.0, 1.2 and 1.0 at the
      quarter points, and each branch ends where the next one starts. */
  lemma ScaleEnvelopeContinuous(q: nat)
    requires q < 4
    ensures ScaleEnvelope(q as real / 4.0) == ScaleKnots[q]
    ensures ScaleEnvelope(1.0) == ScaleKnots[4]
    ensures q < 3 ==> ScaleSegment(q, (q as real + 1.0) / 4.0) == ScaleSegment(q + 1, (q as real + 1.0) / 4.0)
  {
    ScaleSegmentIsLerp(q, q as real / 4.0);
    ScaleSegmentIsLerp(q, (q as real + 1.0) / 4.0);
    LerpEnds(ScaleKnots, q);
    if q < 3 {
      ScaleSegmentIsLerp(q + 1, (q as real + 1.0) / 4.0);
      LerpEnds(ScaleKnots, q + 1);
    }
  }

  /** The alpha envelope passes through 0, 1, 0.5, 1 and 0 at the quarter
      points, and each branch ends where the next one starts. */
  lemma AlphaEnvelopeContinuous(q: nat)
    requires q < 4
    ensures AlphaEnvelope(q as real / 4.0) == AlphaKnots[q]
    ensures AlphaEnvelope(1.0) == AlphaKnots[4]
    ensures q < 3 ==> AlphaSegment(q, (q as real + 1.0) / 4.0) == AlphaSegment(q + 1, (q as real + 1.0) / 4.0)
  {
    AlphaSegmentIsLerp(q, q as real / 4.0);
    AlphaSegmentIsLerp(q, (q as real + 1.0) / 4.0);
    LerpEnds(AlphaKnots, q);
    if q < 3 {
      AlphaSegmentIsLerp(q + 1, (q as real + 1.0) / 4.0);
      LerpEnds(AlphaKnots, q + 1);
    }
  }

  // ---------------------------------------------------------------------------
  // Operations of the component
  // ---------------------------------------------------------------------------

  /** `ResetAnimation`: neutral scale and opaque white. */
  function ResetAnimation(item: Item): (r: Item)
    ensures r.scale == 1.0 && r.color == White
    ensures r.(scale := item.scale, color := item.color) == item
  {
    item.(scale := 1.0, color := White)
  }

  /** `Initialize`: store the tempo, adopt the kind unless it is `Invalid`,
      stop accepting clicks and reset the visuals. */
  function Initialize(item: Item, bpm: int, animationType: AnimationType): (r: Item)
    ensures r.bpm == bpm
    ensures animationType != Invalid ==> r.animationType == animationType
    ensures animationType == Invalid ==> r.animationType == item.animationType
    ensures !r.selectable && r.scale == 1.0 && r.color == White
    ensures r.active == item.active
  {
    var kind := if animationType != Invalid then animationType else item.animationType;
    ResetAnimation(item.(bpm := bpm, animationType := kind, selectable := false))
  }

  /** `SetSelectable`: turns click acceptance on or off and nothing else. */
  function SetSelectable(item: Item, selectable: bool): (r: Item)
    ensures r.selectable == selectable
    ensures r.(selectable := item.selectable) == item
  {
    item.(selectable := selectable)
  }

  /** `Update`: one visual tick at the given beat time. */
  function Update(item: Item, beatTimeMs: int, attacking: bool): (r: Item)
    ensures r.(scale := item.scale, color := item.color) == item
    ensures (attacking && item.selectable) || item.animationType in {None, Invalid} ==> r == item
    ensures !(attacking && item.selectable) && item.animationType == Scale ==>
              r.color == item.color && r.scale == ScaleEnvelope(Rate(beatTimeMs, item.bpm))
    ensures !(attacking && item.selectable) && item.animationType == Alpha ==>
              r.scale == item.scale && r.color == Color(1.0, 1.0, 1.0, AlphaEnvelope(Rate(beatTimeMs, item.bpm)))
  {
    if attacking && item.selectable then item
    else
      match item.animationType
      case Scale => item.(scale := ScaleEnvelope(Rate(beatTimeMs, item.bpm)))
      case Alpha => item.(color := Color(1.0, 1.0, 1.0, AlphaEnvelope(Rate(beatTimeMs, item.bpm))))
      case _ => item
  }

  /** With a positive tempo and a beat time from the clock, a tick keeps the
      scale within [1.0, 1.4] and the opacity within [0, 1]. */
  lemma UpdateBounds(item: Item, beatTimeMs: int, attacking: bool)
    requires 0 <= beatTimeMs && 0 < item.bpm
    requires !(attacking && item.selectable)
    ensures item.animationType == Scale ==> 1.0 <= Update(item, beatTimeMs, attacking).scale <= 1.4
    ensures item.animationType == Alpha ==> 0.0 <= Update(item, beatTimeMs, attacking).color.a <= 1.0
  {
    RateInUnitInterval(beatTimeMs, item.bpm);
  }

  /** `OnClick` against the player's current tempo. */
  function OnClick(item: Item, currentBpm: int): (r: ClickResult)
    ensures !item.selectable ==> r.item == item && r.request == NoAttack
    ensures r.request == Attack(true) <==> item.selectable && item.bpm == currentBpm
    ensures r.request == Attack(false) <==> item.selectable && item.bpm != currentBpm
    ensures r.request == Attack(false) ==> r.item == item
    ensures r.request == Attack(true) ==>
              && r.item.bpm == item.bpm
              && r.item.animationType == None
              && !r.item.selectable
              && !r.item.active
              && r.item.scale == 1.0 && r.item.color == White
  {
    if !item.selectable then ClickResult(item, NoAttack)
    else if item.bpm == currentBpm then
      var reset := ResetAnimation(item);
      ClickResult(reset.(animationType := None, selectable := false, active := false), Attack(true))
    else ClickResult(item, Attack(false))
  }

  /** A defeated item is frozen: later ticks leave it as it is and later
      clicks are ignored, whatever the current tempo. */
  lemma DefeatedItemIsInert(item: Item, currentBpm: int, beatTimeMs: int, attacking: bool, laterBpm: int)
    requires OnClick(item, currentBpm).request == Attack(true)
    ensures var defeated := OnClick(item, currentBpm).item;
            && Update(defeated, beatTimeMs, attacking) == defeated
            && OnClick(defeated, laterBpm) == ClickResult(defeated, NoAttack)
  {
  }

  /** An initialised item ignores clicks until it is made selectable; then a
      click at its own tempo defeats it. */
  lemma InitializeThenClick(item: Item, bpm: int, animationType: AnimationType, currentBpm: int)
    ensures OnClick(Initialize(item, bpm, animationType), currentBpm).request == NoAttack
    ensures OnClick(SetSelectable(Initialize(item, bpm, animationType), true), bpm).request == Attack(true)
  {
  }

  /** Items never hold the `Invalid` kind. */
  predicate Valid(item: Item) {
    item.animationType != Invalid
  }

  /** Every operation keeps an item valid, so `Invalid` only ever acts as
      "keep the current kind" in `Initialize`. */
  lemma OperationsPreserveValid(item: Item, bpm: int, animationType: AnimationType, selectable: bool,
                                beatTimeMs: int, attacking: bool, currentBpm: int)
    requires Valid(item)
    ensures Valid(Initialize(item, bpm, animationType))
    ensures Valid(SetSelectable(item, selectable))
    ensures Valid(Update(item, beatTimeMs, attacking))
    ensures Valid(OnClick(item, currentBpm).item)
  {
  }

  /** A component as the scene creates it: the field initialisers give tempo
      120 and kind `Scale`, while click acceptance, the active flag and the
      visuals come from the scene. */
  function Fresh(selectable: bool, active: bool, scale: real, color: Color): (item: Item)
    ensures item.bpm == DefaultBpm && item.animationType == DefaultAnimationType
    ensures item.selectable == selectable && item.active == active
    ensures item.scale == scale && item.color == color
  {
    Item(DefaultBpm, DefaultAnimationType, selectable, active, scale, color)
  }

  /** A fresh component is valid and, until it is initialised, pulses in scale
      at 120 BPM between 1.0 and 1.4. */
  lemma FreshItemPulses(selectable: bool, active: bool, scale: real, color: Color, beatTimeMs: int, attacking: bool)
    requires 0 <= beatTimeMs && !(attacking && selectable)
    ensures Valid(Fresh(selectable, active, scale, color))
    ensures var r := Update(Fresh(selectable, active, scale, color), beatTimeMs, attacking);
            && r.scale == ScaleEnvelope(Rate(beatTimeMs, 120))
            && 1.0 <= r.scale <= 1.4
            && r.color == color
  {
    UpdateBounds(Fresh(selectable, active, scale, color), beatTimeMs, attacking);
  }
}
