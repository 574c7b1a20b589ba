/**
 * One animated wax blob: the choice of its motion pattern, the keyframes
 * of that pattern, and the timing parameters of its animation.
 */
module Blob {
  import opened Types

  /** The reserved identity of the large "mother" blob at the bottom of the lamp. */
  const MotherId: int := 99

  /** JavaScript's `%` for a positive divisor: the remainder takes the sign of the dividend. */
  function JsRemainder(a: int, b: int): (r: int)
    requires b > 0
    ensures a >= 0 ==> r == a % b
    ensures a < 0 ==> r == -((-a) % b) && -b < r <= 0
  {
    if a >= 0 then a % b else -((-a) % b)
  }

  /** The behaviour number: 1 for the mother blob, otherwise the identity modulo 3. */
  function BehaviorType(id: int): (t: int)
    ensures id == MotherId ==> t == 1
    ensures id != MotherId && id >= 0 ==> t == id % 3
    ensures id >= 0 ==> 0 <= t <= 2
    ensures id < 0 ==> -2 <= t <= 0
  {
    if id == MotherId then 1 else JsRemainder(id, 3)
  }

  /** The three motion patterns. */
  datatype Pattern =
    | Rising    // behaviour 0: large stretches all the way up
    | Hovering  // behaviour 1: wobbles near the bottom
    | Surging   // every other behaviour: alternately slow and fast ascent

  /** Behaviour 0 and 1 select their own pattern; every other value falls to the last branch. */
  function PatternOf(t: int): (p: Pattern)
    ensures p == Rising <==> t == 0
    ensures p == Hovering <==> t == 1
  {
    if t == 0 then Rising else if t == 1 then Hovering else Surging
  }

  /** Every non-negative identity other than the mother's cycles through the patterns by `id % 3`. */
  lemma {:induction false} PatternCycles(id: int)
    requires id >= 0 && id != MotherId && id + 3 != MotherId
    ensures PatternOf(BehaviorType(id + 3)) == PatternOf(BehaviorType(id))
  {
    assert (id + 3) % 3 == id % 3;
  }

  /** The vertical distance a rising blob travels. */
  function TravelDistance(containerHeight: real, size: real): (d: real)
    ensures d - containerHeight == 4.0 * size
  {
    containerHeight + size * 4.0
  }

  /** How high a hovering blob lifts: 5% of the container for the mother, 20% for the others. */
  function HoverHeight(isMother: bool, containerHeight: real): (h: real)
    ensures isMother ==> h * 20.0 == containerHeight
    ensures !isMother ==> h * 5.0 == containerHeight
  {
    if isMother then containerHeight * 0.05 else containerHeight * 0.2
  }

  /** One keyframe: offset in percent, vertical translation in px, scale, rotation in degrees. */
  datatype Keyframe = Keyframe(offset: int, translateY: real, scaleX: real, scaleY: real, rotate: real)

  /**
   * The keyframes of one pattern; a frame without a rotation has rotation 0.
   * Every pattern spans one whole cycle: it starts at 0%, ends at 100%,
   * its offsets strictly increase, and it starts resting at `translateY(size)`.
   * A hovering blob ends where it began; the others end a full travel up.
   */
  function Keyframes(p: Pattern, size: real, travel: real, hover: real): (k: seq<Keyframe>)
    ensures |k| >= 2
    ensures k[0].offset == 0 && k[|k| - 1].offset == 100
    ensures forall i, j :: 0 <= i < j < |k| ==> k[i].offset < k[j].offset
    ensures k[0].translateY == size
    ensures p == Hovering ==> k[|k| - 1].(offset := 0) == k[0]
    ensures p != Hovering ==> k[|k| - 1].translateY == -travel
  {
    match p
    case Rising => [
      Keyframe(0, size, 1.1, 0.9, 0.0),
      Keyframe(15, -(travel * 0.1), 0.85, 1.2, 0.0),
      Keyframe(50, -(travel * 0.5), 0.95, 1.05, 0.0),
      Keyframe(90, -(travel * 0.9), 1.2, 0.85, 0.0),
      Keyframe(100, -travel, 1.0, 1.0, 0.0)]
    case Hovering => [
      Keyframe(0, size, 1.05, 0.95, 0.0),
      Keyframe(33, -hover, 0.95, 1.05, 2.0),
      Keyframe(66, -(hover * 0.5), 1.02, 0.98, -2.0),
      Keyframe(100, size, 1.05, 0.95, 0.0)]
    case Surging => [
      Keyframe(0, size, 1.0, 1.0, 0.0),
      Keyframe(20, -(travel * 0.1), 1.1, 0.9, 0.0),
      Keyframe(40, -(travel * 0.5), 0.7, 1.4, 0.0),
      Keyframe(80, -(travel * 0.85), 1.1, 0.9, 0.0),
      Keyframe(100, -travel, 1.0, 1.0, 0.0)]
  }

  /** The speed factor of the blob's pattern: the mother moves at half the others' rate. */
  function SpeedFactor(isMother: bool): (f: real)
    ensures 0.0 < f
    ensures isMother <==> f < SpeedFactor(false)
  {
    if isMother then 0.2 else 0.4
  }

  /** The divisor of the duration, floored so that it is never zero or negative. */
  function SafeSpeed(speed: real, factor: real): (s: real)
    ensures s >= 0.01
    ensures speed * factor >= 0.01 ==> s == speed * factor
    ensures speed * factor < 0.01 ==> s == 0.01
  {
    Max(0.01, speed * factor)
  }

  /** The duration of one animation cycle at the global speed multiplier. */
  function AdjustedDuration(duration: real, speed: real, isMother: bool): (d: real)
    ensures d * SafeSpeed(speed, SpeedFactor(isMother)) == duration
    ensures duration > 0.0 ==> d > 0.0
  {
    duration / SafeSpeed(speed, SpeedFactor(isMother))
  }

  lemma PositiveProduct(x: real, y: real)
    requires x > 0.0 && y > 0.0
    ensures x * y > 0.0
  {
  }

  /** Raising the global speed never lengthens a blob's cycle. */
  lemma {:induction false} FasterIsShorter(duration: real, slow: real, fast: real, isMother: bool)
    requires duration >= 0.0 && slow <= fast
    ensures AdjustedDuration(duration, fast, isMother) <= AdjustedDuration(duration, slow, isMother)
  {
    var f := SpeedFactor(isMother);
    var a, b := SafeSpeed(slow, f), SafeSpeed(fast, f);
    assert slow * f <= fast * f;
    assert a <= b;
    var da, db := duration / a, duration / b;
    var slowProduct, fastProduct := da * a, db * a;
    assert slowProduct == duration;
    assert db >= 0.0;
    assert fastProduct <= db * b == duration;
    assert (db - da) * a == fastProduct - slowProduct;
    if db > da {
      PositiveProduct(db - da, a);
      assert false;
    }
  }

  // ---------------------------------------------------------------------------
  // The animation name: "float-" and the decimal identity
  // ---------------------------------------------------------------------------

  function DigitChar(d: nat): (c: char)
    requires d < 10
    ensures '0' <= c <= '9'
    ensures c as int - '0' as int == d
  {
    (d + '0' as int) as char
  }

  predicate IsDigits(s: string) {
    forall i :: 0 <= i < |s| ==> '0' <= s[i] <= '9'
  }

  /** The decimal numeral of a natural number, without leading zeros. */
  function NatText(n: nat): (s: string)
    ensures |s| >= 1 && IsDigits(s)
    ensures n >= 10 ==> s[0] != '0'
    decreases n
  {
    if n < 10 then [DigitChar(n)] else NatText(n / 10) + [DigitChar(n % 10)]
  }

  /** The value of a numeral. */
  function DigitsValue(s: string): nat
    requires IsDigits(s)
  {
    if s == [] then 0
    else DigitsValue(s[..|s| - 1]) * 10 + (s[|s| - 1] as int - '0' as int)
  }

  lemma {:induction false} NatTextValue(n: nat)
    ensures DigitsValue(NatText(n)) == n
    decreases n
  {
    if n >= 10 {
      var s := NatText(n);
      assert s[..|s| - 1] == NatText(n / 10);
      NatTextValue(n / 10);
    }
  }

  lemma {:induction false} NatTextInjective(m: nat, n: nat)
    requires m != n
    ensures NatText(m) != NatText(n)
  {
    NatTextValue(m);
    NatTextValue(n);
  }

  /** How JavaScript writes an integer of magnitude below 10^21 in a template string. */
  function IntText(n: int): string {
    if n < 0 then "-" + NatText(-n) else NatText(n)
  }

  /** Different integers are written differently. */
  lemma {:induction false} IntTextInjective(a: int, b: int)
    requires a != b
    ensures IntText(a) != IntText(b)
  {
    if a < 0 && b < 0 {
      NegativeText(a);
      NegativeText(b);
      NatTextInjective(-a, -b);
    } else if a >= 0 && b >= 0 {
      NatTextInjective(a, b);
    } else if a < 0 {
      NegativeText(a);
      NotNegativeText(b);
    } else {
      NegativeText(b);
      NotNegativeText(a);
    }
  }

  /** A negative number is a minus sign followed by the numeral of its magnitude. */
  lemma NegativeText(n: int)
    requires n < 0
    ensures |IntText(n)| >= 2 && IntText(n)[0] == '-' && IntText(n)[1..] == NatText(-n)
  {
    assert IntText(n) == "-" + NatText(-n);
  }

  lemma NotNegativeText(n: int)
    requires n >= 0
    ensures |IntText(n)| >= 1 && IntText(n)[0] != '-'
  {
    assert IntText(n) == NatText(n);
    assert '0' <= NatText(n)[0] <= '9';
  }

  /** The name of the blob's keyframe rule. */
  function AnimationName(id: int): (name: string)
    ensures |name| > |"float-"| && name[..6] == "float-"
    ensures name[6..] == IntText(id)
  {
    "float-" + IntText(id)
  }

  /** Distinct blobs get distinct keyframe rules, so no blob's rule overrides another's. */
  lemma {:induction false} AnimationNamesDistinct(a: int, b: int)
    requires a != b
    ensures AnimationName(a) != AnimationName(b)
  {
    IntTextInjective(a, b);
  }

  // ---------------------------------------------------------------------------
  // The whole animation of one blob
  // ---------------------------------------------------------------------------

  /** What the component renders for one blob, as numbers rather than CSS text. */
  datatype Animation = Animation(
    name: string,
    keyframes: seq<Keyframe>,
    duration: real,  // seconds per cycle
    delay: real,     // the emitted animation delay, in seconds
    opacity: real,
    cx: real)        // horizontal centre, percent of the lamp width

  function BlobAnimation(config: BlobConfig, containerHeight: real, speed: real): (a: Animation)
    ensures a.name == AnimationName(config.id)
    ensures a.delay == -config.delay
    ensures a.opacity == config.opacity && a.cx == config.x
    ensures a.keyframes == Keyframes(PatternOf(BehaviorType(config.id)), config.size,
                                     TravelDistance(containerHeight, config.size),
                                     HoverHeight(config.id == MotherId, containerHeight))
    ensures a.duration == AdjustedDuration(config.duration, speed, config.id == MotherId)
    ensures config.duration > 0.0 ==> a.duration > 0.0
  {
    var isMother := config.id == MotherId;
    var travel := TravelDistance(containerHeight, config.size);
    var hover := HoverHeight(isMother, containerHeight);
    Animation(
      AnimationName(config.id),
      Keyframes(PatternOf(BehaviorType(config.id)), config.size, travel, hover),
      AdjustedDuration(config.duration, speed, isMother),
      -config.delay,
      config.opacity,
      config.x)
  }

  /** The mother blob hovers low and slowly; other blobs follow their identity's pattern. */
  lemma {:induction false} MotherBlobAnimation(config: BlobConfig, containerHeight: real, speed: real)
    requires config.id == MotherId
    ensures var a := BlobAnimation(config, containerHeight, speed);
      a.keyframes == Keyframes(Hovering, config.size, TravelDistance(containerHeight, config.size),
                               containerHeight * 0.05)
      && a.duration * SafeSpeed(speed, 0.2) == config.duration
  {
    assert BehaviorType(config.id) == 1;
  }
}
