/**
 * The lamp widget itself: the line-intersection helper behind the glass
 * silhouette, the drag-and-tilt controller with the settings panel toggle,
 * the configuration handlers, and the batch of wax blobs made at mount.
 * Pointer events, window sizes and random draws are parameters.
 */
module LavaLamp {
  import opened Types
  import Storage
  import Blob

  // ---------------------------------------------------------------------------
  // Geometry
  // ---------------------------------------------------------------------------

  datatype Point = Point(x: real, y: real)

  /** Zero exactly when the line p1-p2 is parallel to the line p3-p4. */
  function Denominator(p1: Point, p2: Point, p3: Point, p4: Point): real {
    (p1.x - p2.x) * (p3.y - p4.y) - (p1.y - p2.y) * (p3.x - p4.x)
  }

  /** The cross product of b - a and q - a: zero exactly when q lies on the line through a and b. */
  function Cross(a: Point, b: Point, q: Point): real {
    (b.x - a.x) * (q.y - a.y) - (b.y - a.y) * (q.x - a.x)
  }

  /**
   * The point where the line through p1 and p2 meets the line through p3
   * and p4; for parallel lines, the endpoint p2 instead.
   */
  function Intersection(p1: Point, p2: Point, p3: Point, p4: Point): (p: Point)
    ensures Denominator(p1, p2, p3, p4) == 0.0 ==> p == p2
  {
    var denom := Denominator(p1, p2, p3, p4);
    if denom == 0.0 then p2
    else
      var a := p1.x * p2.y - p1.y * p2.x;
      var b := p3.x * p4.y - p3.y * p4.x;
      Point((a * (p3.x - p4.x) - (p1.x - p2.x) * b) / denom,
            (a * (p3.y - p4.y) - (p1.y - p2.y) * b) / denom)
  }

  /** For lines that are not parallel the result lies on both lines. */
  lemma IntersectionOnBothLines(p1: Point, p2: Point, p3: Point, p4: Point)
    requires Denominator(p1, p2, p3, p4) != 0.0
    ensures Cross(p1, p2, Intersection(p1, p2, p3, p4)) == 0.0
    ensures Cross(p3, p4, Intersection(p1, p2, p3, p4)) == 0.0
  {
  }

  // The fixed layout of the lamp in its 240 x 600 view box.
  const CenterX: real := 120.0
  const Unit: real := 35.0
  const CapTopY: real := 50.0
  const CapBotY: real := CapTopY + 2.0 * Unit
  const BaseTopY: real := CapBotY + 7.0 * Unit
  const BaseWaistY: real := BaseTopY + 5.0 * Unit * 0.45

  /** The left and right junctions of the cap's sides with the base's sides. */
  function LeftJunction(): Point {
    Intersection(Point(CenterX - 30.0, CapTopY), Point(CenterX - 40.0, CapBotY),
                 Point(CenterX - 40.0, BaseWaistY), Point(CenterX - 70.0, BaseTopY))
  }

  function RightJunction(): Point {
    Intersection(Point(CenterX + 30.0, CapTopY), Point(CenterX + 40.0, CapBotY),
                 Point(CenterX + 40.0, BaseWaistY), Point(CenterX + 70.0, BaseTopY))
  }

  /** The lamp's side lines do meet, and the glass outline is mirror-symmetric about the centre line. */
  lemma JunctionsAreMirrored()
    ensures Denominator(Point(CenterX - 30.0, CapTopY), Point(CenterX - 40.0, CapBotY),
                        Point(CenterX - 40.0, BaseWaistY), Point(CenterX - 70.0, BaseTopY)) != 0.0
    ensures RightJunction().x == 2.0 * CenterX - LeftJunction().x
    ensures RightJunction().y == LeftJunction().y
  {
  }

  // ---------------------------------------------------------------------------
  // Dragging
  // ---------------------------------------------------------------------------

  /** The margin kept between the lamp's anchor and the left, right and top edges. */
  const Padding: real := 50.0

  /** The largest tilt, in degrees, either way. */
  const MaxTilt: real := 12.0

  function Abs(r: real): real {
    if r < 0.0 then -r else r
  }

  /**
   * Where on the lamp's height the pointer grabbed it, from 0 (top) to 1
   * (bottom); the middle when the element has no height.
   */
  function GrabRatio(clickY: real, height: real): (r: real)
    ensures 0.0 <= r <= 1.0
    ensures height <= 0.0 ==> r == 0.5
    ensures height > 0.0 && 0.0 <= clickY <= height ==> r * height == clickY
    ensures height > 0.0 && clickY < 0.0 ==> r == 0.0
    ensures height > 0.0 && clickY > height ==> r == 1.0
  {
    if height > 0.0 then Min(Max(clickY / height, 0.0), 1.0) else 0.5
  }

  /** Raising a coordinate to `lo` and then lowering it to `hi`, as two `if`s in that order do. */
  function ClampAxis(v: real, lo: real, hi: real): (r: real)
    ensures r <= hi
    ensures lo <= hi ==> lo <= r
    ensures lo <= v <= hi ==> r == v
    ensures r == v || r == lo || r == hi
    ensures lo <= hi && v < lo ==> r == lo
    ensures v > hi || lo > hi ==> r == hi
  {
    Min(Max(v, lo), hi)
  }

  /** The lamp's tilt for a horizontal pointer movement and a grab position. */
  function Tilt(movementX: real, grabRatio: real): (t: real)
    ensures -MaxTilt <= t <= MaxTilt
    ensures grabRatio == 0.5 ==> t == 0.0
    ensures -MaxTilt <= movementX * (0.5 - grabRatio) * 4.0 <= MaxTilt ==>
              t == movementX * (0.5 - grabRatio) * 4.0
    ensures movementX * (0.5 - grabRatio) * 4.0 > MaxTilt ==> t == MaxTilt
    ensures movementX * (0.5 - grabRatio) * 4.0 < -MaxTilt ==> t == -MaxTilt
  {
    var leverage := (0.5 - grabRatio) * 4.0;
    Max(-MaxTilt, Min(MaxTilt, movementX * leverage))
  }

  /** A tilt grabbed above the middle leans with the pointer; below the middle, against it. */
  lemma {:induction false} TiltLeverage(movementX: real, grabRatio: real)
    requires movementX > 0.0
    ensures grabRatio < 0.5 ==> Tilt(movementX, grabRatio) > 0.0
    ensures grabRatio > 0.5 ==> Tilt(movementX, grabRatio) < 0.0
  {
    if grabRatio < 0.5 {
      assert movementX * ((0.5 - grabRatio) * 4.0) > 0.0;
    } else if grabRatio > 0.5 {
      assert movementX * ((grabRatio - 0.5) * 4.0) > 0.0;
    }
  }

  /** What the drag gesture remembers between its events. */
  datatype DragState = DragState(
    isDragging: bool,
    startX: real, startY: real,       // pointer position at mouse-down
    initialX: real, initialY: real,   // lamp anchor at mouse-down
    grabRatio: real)

  /** The configuration the lamp starts with until the stored settings arrive. */
  const InitialConfig: LampConfig := LampConfig(
    theme := Dark, color := Red, size := 0.5, speed := 1.0, splashOpacity := 0.9,
    isLocked := false, isOn := true, isMinimized := false, isSplashOn := true)

  /** The lamp component's state. */
  class Lamp {
    var config: LampConfig
    var position: Point
    var rotation: real
    var showPanel: bool
    var drag: DragState
    var listening: bool  // the document's move and up listeners are registered
    var blobs: seq<BlobConfig>

    ghost predicate Valid()
      reads this
    {
      && 0.0 <= drag.grabRatio <= 1.0
      && -MaxTilt <= rotation <= MaxTilt
    }

    constructor (innerWidth: real, innerHeight: real)
      ensures Valid()
      ensures config == InitialConfig
      ensures position == Point(innerWidth - 200.0, innerHeight - 100.0)
      ensures rotation == 0.0 && !showPanel && !listening && blobs == []
      ensures drag == DragState(false, 0.0, 0.0, 0.0, 0.0, 0.5)
    {
      config := InitialConfig;
      position := Point(innerWidth - 200.0, innerHeight - 100.0);
      rotation := 0.0;
      showPanel := false;
      drag := DragState(false, 0.0, 0.0, 0.0, 0.0, 0.5);
      listening := false;
      blobs := [];
    }

    /**
     * Mouse-down on the lamp: outside the settings menu it starts a
     * gesture, remembering the pointer, the anchor and the grab ratio.
     */
    method MouseDown(clientX: real, clientY: real, rectTop: real, rectHeight: real, onMenu: bool)
      requires Valid()
      modifies this
      ensures Valid()
      ensures onMenu ==> drag == old(drag) && listening == old(listening)
      ensures !onMenu ==> listening
      ensures !onMenu ==>
                drag == DragState(true, clientX, clientY, old(position).x, old(position).y,
                                  GrabRatio(clientY - rectTop, rectHeight))
      ensures config == old(config) && position == old(position) && rotation == old(rotation)
      ensures showPanel == old(showPanel) && blobs == old(blobs)
    {
      if onMenu {
        return;
      }
      var ratio := GrabRatio(clientY - rectTop, rectHeight);
      drag := DragState(true, clientX, clientY, position.x, position.y, ratio);
      listening := true;
    }

    /**
     * Mouse-move during a gesture: unless the lamp is locked, the anchor
     * follows the pointer inside the padded window and the lamp tilts.
     */
    method MouseMove(clientX: real, clientY: real, movementX: real,
                     innerWidth: real, innerHeight: real)
      requires Valid() && listening
      modifies this
      ensures Valid()
      ensures !drag.isDragging || config.isLocked ==>
                position == old(position) && rotation == old(rotation)
      ensures drag.isDragging && !config.isLocked ==>
                && position == Point(
                     ClampAxis(drag.initialX + (clientX - drag.startX), Padding, innerWidth - Padding),
                     ClampAxis(drag.initialY + (clientY - drag.startY), Padding, innerHeight))
                && rotation == Tilt(movementX, drag.grabRatio)
      ensures drag.isDragging && !config.isLocked ==>
                && position.x <= innerWidth - Padding && position.y <= innerHeight
                && (innerWidth >= 2.0 * Padding ==> position.x >= Padding)
                && (innerHeight >= Padding ==> position.y >= Padding)
      ensures drag == old(drag) && config == old(config) && showPanel == old(showPanel)
      ensures listening == old(listening) && blobs == old(blobs)
    {
      if !drag.isDragging {
        return;
      }
      if config.isLocked {
        return;
      }
      var dx := clientX - drag.startX;
      var dy := clientY - drag.startY;
      var newX := drag.initialX + dx;
      var newY := drag.initialY + dy;
      var maxX := innerWidth - Padding;
      var maxY := innerHeight;
      if newX < Padding { newX := Padding; }
      if newX > maxX { newX := maxX; }
      if newY < Padding { newY := Padding; }
      if newY > maxY { newY := maxY; }
      position := Point(newX, newY);
      rotation := Tilt(movementX, drag.grabRatio);
    }

    /**
     * Mouse-up ends the gesture. A movement of under 5 px (Manhattan) is a
     * click, which toggles the settings panel unless the lamp is minimised
     * or the pointer is on the menu; the lock plays no part.
     */
    method MouseUp(clientX: real, clientY: real, onMenu: bool)
      requires Valid() && listening
      modifies this
      ensures Valid()
      ensures showPanel ==
                if Abs(clientX - drag.startX) + Abs(clientY - drag.startY) < 5.0
                   && !config.isMinimized && !onMenu
                then !old(showPanel) else old(showPanel)
      ensures drag == old(drag).(isDragging := false) && rotation == 0.0 && !listening
      ensures config == old(config) && position == old(position) && blobs == old(blobs)
    {
      var movedDist := Abs(clientX - drag.startX) + Abs(clientY - drag.startY);
      if movedDist < 5.0 && !config.isMinimized {
        if !onMenu {
          showPanel := !showPanel;
        }
      }
      drag := drag.(isDragging := false);
      rotation := 0.0;
      listening := false;
    }

    // -------------------------------------------------------------------------
    // Configuration handlers
    // -------------------------------------------------------------------------

    /** Sets one field of the configuration. */
    method UpdateConfig(v: FieldValue)
      requires Valid()
      modifies this
      ensures Valid()
      ensures config == With(old(config), v)
      ensures Get(config, KeyOf(v)) == v
      ensures forall f :: f != KeyOf(v) ==> Get(config, f) == Get(old(config), f)
      ensures position == old(position) && rotation == old(rotation) && showPanel == old(showPanel)
      ensures drag == old(drag) && listening == old(listening) && blobs == old(blobs)
    {
      config := With(config, v);
    }

    /** Minimises the lamp to the ignition game and hides the panel. */
    method Minimize()
      requires Valid()
      modifies this
      ensures Valid()
      ensures config == old(config).(isMinimized := true) && !showPanel
      ensures position == old(position) && rotation == old(rotation)
      ensures drag == old(drag) && listening == old(listening) && blobs == old(blobs)
    {
      UpdateConfig(MinimizedValue(true));
      showPanel := false;
    }

    /** The ignition game's revive signal: the lamp is shown again. */
    method Revive()
      requires Valid()
      modifies this
      ensures Valid()
      ensures config == old(config).(isMinimized := false) && showPanel == old(showPanel)
      ensures position == old(position) && rotation == old(rotation)
      ensures drag == old(drag) && listening == old(listening) && blobs == old(blobs)
    {
      UpdateConfig(MinimizedValue(false));
    }

    /** The loaded settings, spread over the current configuration, replace it entirely. */
    method ApplyLoaded(saved: LampConfig)
      requires Valid()
      modifies this
      ensures Valid()
      ensures config == saved
      ensures position == old(position) && rotation == old(rotation) && showPanel == old(showPanel)
      ensures drag == old(drag) && listening == old(listening) && blobs == old(blobs)
    {
      Storage.MergeWhole(config, saved);
      config := Storage.Merge(config, Storage.Whole(saved));
    }

    /** The mount effect that creates the wax blobs. */
    method CreateBlobs(draws: seq<BlobDraw>)
      requires Valid()
      requires |draws| >= BatchSize && forall d :: d in draws ==> IsBlobDraw(d)
      modifies this
      ensures Valid()
      ensures |blobs| == BatchSize + 1
      ensures forall i :: 0 <= i < BatchSize ==> blobs[i] == MakeBlob(i, draws[i])
      ensures blobs[BatchSize] == MotherBlob
      ensures config == old(config) && position == old(position) && rotation == old(rotation)
      ensures showPanel == old(showPanel) && drag == old(drag) && listening == old(listening)
    {
      blobs := MakeBlobBatch(draws);
    }
  }

  // ---------------------------------------------------------------------------
  // The blob batch
  // ---------------------------------------------------------------------------

  /** The number of ordinary blobs; the mother blob comes after them. */
  const BatchSize: nat := 12

  /** The five `Math.random()` draws one blob consumes, in the order they are made. */
  datatype BlobDraw = BlobDraw(x: real, size: real, duration: real, delay: real, opacity: real)

  predicate IsBlobDraw(d: BlobDraw) {
    && 0.0 <= d.x < 1.0 && 0.0 <= d.size < 1.0 && 0.0 <= d.duration < 1.0
    && 0.0 <= d.delay < 1.0 && 0.0 <= d.opacity < 1.0
  }

  /** One ordinary blob with identity `i`; from draws in [0, 1) it lies in the middle of the glass. */
  function MakeBlob(i: int, d: BlobDraw): (b: BlobConfig)
    ensures b.id == i
    ensures IsBlobDraw(d) ==> OrdinaryPlaced(b) && WellPlaced(b)
  {
    BlobConfig(i, 35.0 + d.x * 30.0, 10.0 + d.size * 18.0, 8.0 + d.duration * 15.0,
               d.delay * 20.0, 0.9 + d.opacity * 0.1)
  }

  const MotherBlob: BlobConfig := BlobConfig(Blob.MotherId, 50.0, 50.0, 6.0, 0.0, 1.0)

  /** Where a drawn (ordinary) blob lands: the ranges of the five scaled draws. */
  ghost predicate OrdinaryPlaced(b: BlobConfig) {
    && 35.0 <= b.x < 65.0
    && 10.0 <= b.size < 28.0
    && 8.0 <= b.duration < 23.0
    && 0.0 <= b.delay < 20.0
    && 0.9 <= b.opacity < 1.0
  }

  /** Blobs stay in the middle of the glass, with positive radius and cycle length. */
  ghost predicate WellPlaced(b: BlobConfig) {
    && 35.0 <= b.x <= 65.0
    && 10.0 <= b.size <= 50.0
    && 6.0 <= b.duration < 23.0
    && 0.0 <= b.delay < 20.0
    && 0.9 <= b.opacity <= 1.0
  }

  /** The blob-creation loop: twelve ordinary blobs with identities 0..11, then the mother. */
  method MakeBlobBatch(draws: seq<BlobDraw>) returns (batch: seq<BlobConfig>)
    requires |draws| >= BatchSize && forall d :: d in draws ==> IsBlobDraw(d)
    ensures |batch| == BatchSize + 1
    ensures forall i :: 0 <= i < BatchSize ==> batch[i] == MakeBlob(i, draws[i])
    ensures batch[BatchSize] == MotherBlob
    ensures forall i :: 0 <= i < |batch| ==> WellPlaced(batch[i])
    ensures forall i, j :: 0 <= i < j < |batch| ==> batch[i].id != batch[j].id
  {
    batch := [];
    var i := 0;
    while i < BatchSize
      invariant 0 <= i <= BatchSize
      invariant |batch| == i
      invariant forall k :: 0 <= k < i ==> batch[k] == MakeBlob(k, draws[k])
      invariant forall k :: 0 <= k < i ==> WellPlaced(batch[k])
    {
      assert draws[i] in draws;
      batch := batch + [MakeBlob(i, draws[i])];
      i := i + 1;
    }
    batch := batch + [MotherBlob];
  }

  /**
   * In a batch every blob has its own keyframe rule; the ordinary blobs
   * take the patterns in turn and the mother hovers.
   */
  lemma {:induction false} BatchAnimations(draws: seq<BlobDraw>, batch: seq<BlobConfig>)
    requires |draws| >= BatchSize && |batch| == BatchSize + 1
    requires forall i :: 0 <= i < BatchSize ==> batch[i] == MakeBlob(i, draws[i])
    requires batch[BatchSize] == MotherBlob
    ensures forall i, j :: 0 <= i < j < |batch| ==>
              Blob.AnimationName(batch[i].id) != Blob.AnimationName(batch[j].id)
    ensures forall i :: 0 <= i < BatchSize ==>
              Blob.PatternOf(Blob.BehaviorType(batch[i].id)) == Blob.PatternOf(i % 3)
    ensures Blob.PatternOf(Blob.BehaviorType(batch[BatchSize].id)) == Blob.Hovering
  {
    forall i, j | 0 <= i < j < |batch|
      ensures Blob.AnimationName(batch[i].id) != Blob.AnimationName(batch[j].id)
    {
      Blob.AnimationNamesDistinct(batch[i].id, batch[j].id);
    }
  }
}
