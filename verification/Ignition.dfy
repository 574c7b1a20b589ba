/**
 * The ignition minigame shown while the lamp is minimised: each click
 * strikes a burst of sparks and raises a combo counter, the third strike
 * revives the lamp, and every animation frame moves the sparks and dims
 * the flash. Timers and frames are explicit events; the random draws of
 * a strike are parameters.
 */
module Ignition {
  import opened Types

  /** One spark: identity, position, velocity, remaining life, colour and radius. */
  datatype Spark = Spark(id: real, x: real, y: real, vx: real, vy: real, life: real,
                         color: string, size: real)

  // ---------------------------------------------------------------------------
  // The per-frame step
  // ---------------------------------------------------------------------------

  /** One frame of motion: integrate the velocity, apply gravity and drag, burn some life. */
  function Advance(s: Spark): (t: Spark)
    ensures t.x == s.x + s.vx && t.y == s.y + s.vy
    ensures t.vy == s.vy - 0.15 && t.vx == s.vx * 0.92
    ensures t.life == s.life - 0.025 && t.life < s.life
    ensures t.id == s.id && t.color == s.color && t.size == s.size
  {
    s.(x := s.x + s.vx, y := s.y + s.vy, vy := s.vy - 0.15, vx := s.vx * 0.92, life := s.life - 0.025)
  }

  /** Every spark advanced once, in the same order. */
  function Advanced(ss: seq<Spark>): (r: seq<Spark>)
    ensures |r| == |ss| && forall i :: 0 <= i < |ss| ==> r[i] == Advance(ss[i])
  {
    seq(|ss|, i requires 0 <= i < |ss| => Advance(ss[i]))
  }

  /** The sparks that are still alive, in their original order. */
  function Survivors(ss: seq<Spark>): (r: seq<Spark>)
    ensures |r| <= |ss|
    ensures forall i :: 0 <= i < |r| ==> r[i].life > 0.0
    ensures forall s :: s in r ==> s in ss
  {
    if ss == [] then []
    else if ss[0].life > 0.0 then [ss[0]] + Survivors(ss[1..])
    else Survivors(ss[1..])
  }

  /** Filtering keeps each living spark as many times as it occurs and drops every dead one. */
  lemma {:induction false} SurvivorsKeepCount(ss: seq<Spark>)
    ensures forall s :: multiset(Survivors(ss))[s] == if s.life > 0.0 then multiset(ss)[s] else 0
    decreases |ss|
  {
    if ss != [] {
      SurvivorsKeepCount(ss[1..]);
      assert ss == [ss[0]] + ss[1..];
    }
  }

  /** `a` is `b` with some elements left out and the rest in the same order. */
  ghost predicate IsSubsequence(a: seq<Spark>, b: seq<Spark>)
    decreases |b|
  {
    if a == [] then true
    else if b == [] then false
    else (a[0] == b[0] && IsSubsequence(a[1..], b[1..])) || IsSubsequence(a, b[1..])
  }

  /** Filtering keeps the survivors in their relative order. */
  lemma {:induction false} SurvivorsKeepOrder(ss: seq<Spark>)
    ensures IsSubsequence(Survivors(ss), ss)
    decreases |ss|
  {
    if ss != [] {
      SurvivorsKeepOrder(ss[1..]);
      var rest := Survivors(ss[1..]);
      if ss[0].life > 0.0 {
        assert Survivors(ss) == [ss[0]] + rest;
        assert ([ss[0]] + rest)[1..] == rest;
      } else if rest != [] {
        assert Survivors(ss) == rest;
      }
    }
  }

  /** Filtering drops only dead sparks: every living spark is kept. */
  lemma {:induction false} SurvivorsKeepLiving(ss: seq<Spark>, i: int)
    requires 0 <= i < |ss| && ss[i].life > 0.0
    ensures ss[i] in Survivors(ss)
    decreases |ss|
  {
    if i > 0 {
      SurvivorsKeepLiving(ss[1..], i - 1);
      assert ss[1..][i - 1] == ss[i];
    }
  }

  /** Filtering a concatenation filters each part: older sparks stay ahead of newer ones. */
  lemma {:induction false} SurvivorsAppend(a: seq<Spark>, b: seq<Spark>)
    ensures Survivors(a + b) == Survivors(a) + Survivors(b)
    decreases |a|
  {
    if a != [] {
      var ab := a + b;
      assert ab[0] == a[0];
      assert ab[1..] == a[1..] + b;
      SurvivorsAppend(a[1..], b);
      if a[0].life > 0.0 {
        assert Survivors(ab) == [a[0]] + Survivors(a[1..] + b);
        assert Survivors(a) == [a[0]] + Survivors(a[1..]);
      } else {
        assert Survivors(ab) == Survivors(a[1..] + b);
        assert Survivors(a) == Survivors(a[1..]);
      }
    } else {
      assert a + b == b;
    }
  }

  /**
   * The spark list after one animation frame: no dead spark remains, the
   * count never grows, survivors keep their order, and every spark whose
   * advanced life is positive survives, as many times as it occurs.
   */
  function StepSparks(ss: seq<Spark>): (r: seq<Spark>)
    ensures |r| <= |ss|
    ensures forall i :: 0 <= i < |r| ==> r[i].life > 0.0
    ensures IsSubsequence(r, Advanced(ss))
    ensures forall i :: 0 <= i < |ss| && ss[i].life > 0.025 ==> Advance(ss[i]) in r
    ensures forall s :: multiset(r)[s] == if s.life > 0.0 then multiset(Advanced(ss))[s] else 0
  {
    var r := Survivors(Advanced(ss));
    SurvivorsKeepOrder(Advanced(ss));
    SurvivorsKeepCount(Advanced(ss));
    assert forall i :: 0 <= i < |ss| && ss[i].life > 0.025 ==> Advance(ss[i]) in r by {
      forall i | 0 <= i < |ss| && ss[i].life > 0.025 ensures Advance(ss[i]) in r {
        SurvivorsKeepLiving(Advanced(ss), i);
      }
    }
    r
  }

  /** If every spark has life at most `m`, after a frame every spark has life in (0, m - 0.025]. */
  lemma {:induction false} StepLowersLife(ss: seq<Spark>, m: real)
    requires forall s :: s in ss ==> s.life <= m
    ensures forall s :: s in StepSparks(ss) ==> 0.0 < s.life <= m - 0.025
  {
    forall s | s in StepSparks(ss) ensures 0.0 < s.life <= m - 0.025 {
      assert s in Advanced(ss);
      var i :| 0 <= i < |ss| && Advanced(ss)[i] == s;
      assert ss[i] in ss;
      var k :| 0 <= k < |StepSparks(ss)| && StepSparks(ss)[k] == s;
    }
  }

  /** A step applied `n` times. */
  function Iterate(step: seq<Spark> -> seq<Spark>, ss: seq<Spark>, n: nat): seq<Spark>
    decreases n
  {
    if n == 0 then ss else Iterate(step, step(ss), n - 1)
  }

  /** Running `a + b` steps is running `a` steps and then `b` more. */
  lemma {:induction false} IterateSplit(step: seq<Spark> -> seq<Spark>, ss: seq<Spark>, a: nat, b: nat)
    ensures Iterate(step, ss, a + b) == Iterate(step, Iterate(step, ss, a), b)
    decreases a
  {
    if a > 0 {
      IterateSplit(step, step(ss), a - 1, b);
    }
  }

  /** The spark list after `n` frames. */
  function Frames(ss: seq<Spark>, n: nat): seq<Spark>
  {
    Iterate(StepSparks, ss, n)
  }

  lemma {:induction false} FramesLowerLife(ss: seq<Spark>, n: nat, m: real)
    requires forall s :: s in ss ==> s.life <= m
    ensures forall s :: s in Frames(ss, n) ==> s.life <= m - 0.025 * n as real
    decreases n
  {
    if n > 0 {
      StepLowersLife(ss, m);
      FramesLowerLife(StepSparks(ss), n - 1, m - 0.025);
    }
  }

  /** A spark never outlives forty frames: a list of sparks with life at most 1 is empty by then. */
  lemma {:induction false} SparksBurnOut(ss: seq<Spark>)
    requires forall s :: s in ss ==> s.life <= 1.0
    ensures Frames(ss, 40) == []
  {
    FramesLowerLife(ss, 39, 1.0);
    var before := Frames(ss, 39);
    StepLowersLife(before, 0.025);
    assert Frames(ss, 40) == Frames(before, 1) by {
      FramesSplit(ss, 39, 1);
    }
    assert Frames(before, 1) == StepSparks(before);
    if StepSparks(before) != [] {
      assert false;
    }
  }

  lemma {:induction false} FramesSplit(ss: seq<Spark>, a: nat, b: nat)
    ensures Frames(ss, a + b) == Frames(Frames(ss, a), b)
  {
    IterateSplit(StepSparks, ss, a, b);
  }

  // ---------------------------------------------------------------------------
  // The flash
  // ---------------------------------------------------------------------------

  /** One frame of the flash: it dims by 0.1 and rests at 0. */
  function DecayFlash(f: real): (r: real)
    ensures r >= 0.0
    ensures f <= 0.0 ==> r == 0.0
    ensures f > 0.0 ==> r < f && r == Max(0.0, f - 0.1)
  {
    if f <= 0.0 then 0.0 else Max(0.0, f - 0.1)
  }

  function FlashAfter(f: real, n: nat): real
    decreases n
  {
    if n == 0 then f else FlashAfter(DecayFlash(f), n - 1)
  }

  /** A full flash fades linearly and is out after ten frames. */
  lemma {:induction false} FullFlashFades(n: nat)
    ensures FlashAfter(1.0, n) == Max(0.0, 1.0 - 0.1 * n as real)
  {
    FlashFades(1.0, n);
  }

  lemma {:induction false} FlashFades(f: real, n: nat)
    requires f >= 0.0
    ensures FlashAfter(f, n) == Max(0.0, f - 0.1 * n as real)
    decreases n
  {
    if n > 0 {
      FlashFades(DecayFlash(f), n - 1);
    }
  }

  // ---------------------------------------------------------------------------
  // A strike
  // ---------------------------------------------------------------------------

  /** The bounding box of the game's container. */
  datatype Rect = Rect(width: real, height: real)

  /** The eight `Math.random()` draws one spark consumes, in the order they are made. */
  datatype SparkDraw = SparkDraw(side: real, id: real, x: real, y: real, vx: real, vy: real,
                                 size: real, color: real)

  predicate InUnit(r: real) {
    0.0 <= r < 1.0
  }

  predicate IsDraw(d: SparkDraw) {
    InUnit(d.side) && InUnit(d.id) && InUnit(d.x) && InUnit(d.y) && InUnit(d.vx)
    && InUnit(d.vy) && InUnit(d.size) && InUnit(d.color)
  }

  /** How many sparks the strike that makes the combo `combo` spawns. */
  function SparkCount(combo: nat): (c: nat)
    ensures c >= 15
    ensures combo >= 1 ==> c >= 25
  {
    15 + 10 * combo
  }

  /** Each further strike of a combo spawns ten sparks more than the one before. */
  lemma SparkCountGrows(combo: nat)
    ensures SparkCount(combo + 1) == SparkCount(combo) + 10
  {
  }

  /** Left (-1) when the side draw exceeds one half, right (+1) otherwise. */
  function SideMultiplier(d: SparkDraw): real {
    if d.side > 0.5 then -1.0 else 1.0
  }

  /** The sideways speed drawn for a spark: between 2 and 8 times the scale. */
  function LaunchSpeed(r: real, scale: real): (v: real)
    ensures InUnit(r) && scale > 0.0 ==> 2.0 * scale <= v < 8.0 * scale
  {
    var v := r * 6.0 * scale + 2.0 * scale;
    if InUnit(r) && scale > 0.0 then Bounded(r, scale); v else v
  }

  /** The upward speed drawn for a spark: between 4 and 10 times the scale. */
  function LiftSpeed(r: real, scale: real): (v: real)
    ensures InUnit(r) && scale > 0.0 ==> 4.0 * scale <= v < 10.0 * scale
  {
    var v := r * 6.0 * scale + 4.0 * scale;
    if InUnit(r) && scale > 0.0 then Bounded(r, scale); v else v
  }

  /**
   * One newly struck spark, thrown upwards and sideways from near the
   * bottom centre. It is at full life and, for a container with a width,
   * flies upwards at 4 to 10 times the scale and outwards on its own side
   * at 2 to 8 times the scale.
   */
  function MakeSpark(box: Rect, d: SparkDraw): (s: Spark)
    ensures s.life == 1.0 && s.id == d.id
    ensures s.color == "#fff7ed" || s.color == "#facc15"
    ensures box.width > 0.0 && IsDraw(d) ==>
              && s.vy < 0.0
              && (SideMultiplier(d) < 0.0 ==> s.vx < 0.0)
              && (SideMultiplier(d) > 0.0 ==> s.vx > 0.0)
              && 2.0 * (box.width / 200.0) <= s.vx * SideMultiplier(d) < 8.0 * (box.width / 200.0)
              && 4.0 * (box.width / 200.0) <= -s.vy < 10.0 * (box.width / 200.0)
  {
    var scale := box.width / 200.0;
    var centerX := box.width / 2.0;
    var centerY := box.height * 0.85;
    var side := SideMultiplier(d);
    Spark(
      id := d.id,
      x := centerX + side * (20.0 * scale + d.x * 15.0 * scale),
      y := centerY + (d.y * 10.0 * scale - 5.0 * scale),
      vx := side * LaunchSpeed(d.vx, scale),
      vy := -LiftSpeed(d.vy, scale),
      life := 1.0,
      color := if d.color > 0.4 then "#fff7ed" else "#facc15",
      size := (d.size * 4.0 + 2.0) * scale)
  }

  lemma Bounded(r: real, k: real)
    requires InUnit(r) && k > 0.0
    ensures 0.0 <= r * k < k
  {
  }

  /** The sparks made from a sequence of draws, one per draw, in order. */
  function Burst(box: Rect, draws: seq<SparkDraw>): (r: seq<Spark>)
    ensures |r| == |draws|
  {
    seq(|draws|, i requires 0 <= i < |draws| => MakeSpark(box, draws[i]))
  }

  /** The spawning loop: builds `count` sparks from the first `count` draws. */
  method SpawnSparks(box: Rect, draws: seq<SparkDraw>, count: nat) returns (newSparks: seq<Spark>)
    requires count <= |draws|
    ensures |newSparks| == count
    ensures forall i :: 0 <= i < count ==> newSparks[i] == MakeSpark(box, draws[i])
    ensures forall i :: 0 <= i < count ==> newSparks[i].life == 1.0
  {
    newSparks := [];
    var i := 0;
    while i < count
      invariant 0 <= i <= count
      invariant |newSparks| == i
      invariant forall k :: 0 <= k < i ==> newSparks[k] == MakeSpark(box, draws[k])
    {
      newSparks := newSparks + [MakeSpark(box, draws[i])];
      i := i + 1;
    }
  }

  // ---------------------------------------------------------------------------
  // The game's state and its events
  // ---------------------------------------------------------------------------

  class IgnitionGame {
    var sparks: seq<Spark>
    var comboCount: nat
    var cooldown: real
    var flash: real

    /** Sparks in play are alive and at most at full life; the flash stays in [0, 1]. */
    ghost predicate Valid()
      reads this
    {
      && 0.0 <= flash <= 1.0
      && cooldown >= 0.0
      && forall s :: s in sparks ==> 0.0 < s.life <= 1.0
    }

    /** A freshly mounted game: no sparks, no combo, no cooldown, no flash. */
    constructor ()
      ensures Valid()
      ensures sparks == [] && comboCount == 0 && cooldown == 0.0 && flash == 0.0
    {
      sparks := [];
      comboCount := 0;
      cooldown := 0.0;
      flash := 0.0;
    }

    /** The animation-frame callback. */
    method Frame()
      requires Valid()
      modifies this
      ensures Valid()
      ensures sparks == StepSparks(old(sparks))
      ensures flash == DecayFlash(old(flash)) && flash <= old(flash)
      ensures comboCount == old(comboCount) && cooldown == old(cooldown)
    {
      StepLowersLife(sparks, 1.0);
      sparks := StepSparks(sparks);
      flash := DecayFlash(flash);
    }

    /**
     * A click on the game. Ignored during a cooldown or before the
     * container is attached; otherwise it flashes, raises the combo by
     * one, appends the burst for the new combo after the sparks in play,
     * and asks for a revive once the combo reaches three.
     */
    method Click(container: Option<Rect>, draws: seq<SparkDraw>) returns (revive: bool)
      requires Valid()
      requires |draws| >= SparkCount(comboCount + 1)
      requires forall d :: d in draws ==> IsDraw(d)
      modifies this
      ensures Valid()
      ensures cooldown == old(cooldown)
      ensures old(cooldown) > 0.0 || container.None? ==>
                !revive && sparks == old(sparks) && comboCount == old(comboCount) && flash == old(flash)
      ensures old(cooldown) <= 0.0 && container.Some? ==>
                && comboCount == old(comboCount) + 1
                && flash == 1.0
                && sparks == old(sparks) + Burst(container.value, draws[..SparkCount(comboCount)])
                && |sparks| == |old(sparks)| + 15 + 10 * comboCount
                && revive == (comboCount >= 3)
    {
      if cooldown > 0.0 || container.None? {
        return false;
      }
      flash := 1.0;
      var nextCombo := comboCount + 1;
      comboCount := nextCombo;
      var newSparks := SpawnSparks(container.value, draws, SparkCount(nextCombo));
      assert newSparks == Burst(container.value, draws[..SparkCount(nextCombo)]);
      sparks := sparks + newSparks;
      revive := nextCombo >= 3;
    }

    /** The 2.5 s decay timer, armed whenever the combo becomes 1 or 2, resets it to 0. */
    method DecayTimeout()
      requires Valid()
      modifies this
      ensures Valid()
      ensures 0 < old(comboCount) < 3 ==> comboCount == 0
      ensures !(0 < old(comboCount) < 3) ==> comboCount == old(comboCount)
      ensures sparks == old(sparks) && flash == old(flash) && cooldown == old(cooldown)
    {
      if 0 < comboCount < 3 {
        comboCount := 0;
      }
    }

    /** The 2 s cooldown timer, armed whenever the cooldown becomes positive, clears it and the combo. */
    method CooldownTimeout()
      requires Valid()
      modifies this
      ensures Valid()
      ensures old(cooldown) > 0.0 ==> cooldown == 0.0 && comboCount == 0
      ensures old(cooldown) <= 0.0 ==> cooldown == old(cooldown) && comboCount == old(comboCount)
      ensures sparks == old(sparks) && flash == old(flash)
    {
      if cooldown > 0.0 {
        cooldown := 0.0;
        comboCount := 0;
      }
    }
  }

  /**
   * Four quick strikes on a fresh game taken on its own (the lamp unmounts
   * it once revived): the third revives, and since no cooldown is ever
   * started the fourth is accepted too and revives again.
   */
  method QuickStrikes(box: Rect, d1: seq<SparkDraw>, d2: seq<SparkDraw>,
                      d3: seq<SparkDraw>, d4: seq<SparkDraw>)
    returns (r1: bool, r2: bool, r3: bool, r4: bool, sparkCount: nat)
    requires |d1| >= 25 && |d2| >= 35 && |d3| >= 45 && |d4| >= 55
    requires forall d :: d in d1 + d2 + d3 + d4 ==> IsDraw(d)
    ensures !r1 && !r2 && r3 && r4
    ensures sparkCount == 25 + 35 + 45 + 55
  {
    var game := new IgnitionGame();
    r1 := game.Click(Some(box), d1);
    r2 := game.Click(Some(box), d2);
    r3 := game.Click(Some(box), d3);
    r4 := game.Click(Some(box), d4);
    sparkCount := |game.sparks|;
  }

  /** A strike after the decay timer has fired starts the combo again at 1. */
  method StrikeAfterPause(box: Rect, d1: seq<SparkDraw>, d2: seq<SparkDraw>)
    returns (combo: nat, revived: bool)
    requires |d1| >= 25 && |d2| >= 25
    requires forall d :: d in d1 + d2 ==> IsDraw(d)
    ensures combo == 1 && !revived
  {
    var game := new IgnitionGame();
    var _ := game.Click(Some(box), d1);
    game.DecayTimeout();
    revived := game.Click(Some(box), d2);
    combo := game.comboCount;
  }
}
