/**
 * The teleprompter: a full-screen view of a script that scrolls by itself, with controls for
 * the font size, the scrolling speed, play/pause, reset and a mirror mode for beam-splitter
 * glass. Size, speed and mirroring are saved to the browser's storage whenever they change
 * and read back when the view opens.
 *
 * Sizes and speeds are JavaScript numbers; they are modelled as exact reals.
 */
module Teleprompter {
  import opened Types

  const MinSize: real := 2.0
  const MaxSize: real := 15.0
  const MinSpeed: real := 0.5
  const MaxSpeed: real := 20.0
  /** The amount every size or speed button changes its value by. */
  const Increment: real := 0.5

  const DefaultSpeed: real := 2.0
  const DefaultSize: real := 6.0

  function Max(a: real, b: real): real { if a >= b then a else b }
  function Min(a: real, b: real): real { if a <= b then a else b }

  /** The "-" size button: half a unit smaller, never below the minimum. */
  function SizeDown(s: real): (r: real)
    ensures r >= MinSize
    ensures s - Increment >= MinSize ==> r == s - Increment
    ensures s - Increment < MinSize ==> r == MinSize
    ensures MinSize <= s <= MaxSize ==> MinSize <= r <= MaxSize
  {
    Max(MinSize, s - Increment)
  }

  /** The "+" size button: half a unit larger, never above the maximum. */
  function SizeUp(s: real): (r: real)
    ensures r <= MaxSize
    ensures s + Increment <= MaxSize ==> r == s + Increment
    ensures s + Increment > MaxSize ==> r == MaxSize
    ensures MinSize <= s <= MaxSize ==> MinSize <= r <= MaxSize
  {
    Min(MaxSize, s + Increment)
  }

  /** The "-" speed button: half a unit slower, never below the minimum. */
  function SpeedDown(v: real): (r: real)
    ensures r >= MinSpeed
    ensures v - Increment >= MinSpeed ==> r == v - Increment
    ensures v - Increment < MinSpeed ==> r == MinSpeed
    ensures MinSpeed <= v <= MaxSpeed ==> MinSpeed <= r <= MaxSpeed
  {
    Max(MinSpeed, v - Increment)
  }

  /** The "+" speed button: half a unit faster, never above the maximum. */
  function SpeedUp(v: real): (r: real)
    ensures r <= MaxSpeed
    ensures v + Increment <= MaxSpeed ==> r == v + Increment
    ensures v + Increment > MaxSpeed ==> r == MaxSpeed
    ensures MinSpeed <= v <= MaxSpeed ==> MinSpeed <= r <= MaxSpeed
  {
    Min(MaxSpeed, v + Increment)
  }

  /** Away from the limits, "-" undoes "+" and "+" undoes "-". */
  lemma SizeButtonsUndo(s: real)
    ensures MinSize <= s <= MaxSize - Increment ==> SizeDown(SizeUp(s)) == s
    ensures MinSize + Increment <= s <= MaxSize ==> SizeUp(SizeDown(s)) == s
  {
  }

  lemma SpeedButtonsUndo(v: real)
    ensures MinSpeed <= v <= MaxSpeed - Increment ==> SpeedDown(SpeedUp(v)) == v
    ensures MinSpeed + Increment <= v <= MaxSpeed ==> SpeedUp(SpeedDown(v)) == v
  {
  }

  /** Any number of "-" presses from an in-range size stays in range and never grows it. */
  function SizeDownTimes(s: real, n: nat): real {
    if n == 0 then s else SizeDown(SizeDownTimes(s, n - 1))
  }

  lemma {:induction false} SizeDownTimesInRange(s: real, n: nat)
    requires MinSize <= s <= MaxSize
    ensures MinSize <= SizeDownTimes(s, n) <= s
  {
    if n > 0 {
      SizeDownTimesInRange(s, n - 1);
    }
  }

  /** `n` presses of "-" from an in-range size take `n` half units off, down to the minimum. */
  lemma {:induction false} SizeDownTimesClosedForm(s: real, n: nat)
    requires s >= MinSize
    ensures SizeDownTimes(s, n) == Max(MinSize, s - (n as real) * Increment)
  {
    if n > 0 {
      SizeDownTimesClosedForm(s, n - 1);
    }
  }

  /** Pressing "-" often enough reaches the minimum size. */
  lemma SizeDownReachesMin(s: real, n: nat)
    requires MinSize <= s <= MinSize + (n as real) * Increment
    ensures SizeDownTimes(s, n) == MinSize
  {
    SizeDownTimesClosedForm(s, n);
  }

  /**
   * The scroll position after `frames` animation frames at speed `speed`: at a non-negative
   * speed the script never moves back, and at a positive speed every frame moves it on.
   */
  function Advance(position: real, speed: real, frames: nat): (r: real)
    ensures speed >= 0.0 ==> r >= position
    ensures speed > 0.0 && frames > 0 ==> r > position
  {
    if frames == 0 then position else Advance(position, speed, frames - 1) + speed / 10.0
  }

  /** Each frame adds a tenth of the speed, so `n` frames add `n` tenths. */
  lemma {:induction false} AdvanceClosedForm(position: real, speed: real, frames: nat)
    ensures Advance(position, speed, frames) == position + (frames as real) * speed / 10.0
  {
    if frames > 0 {
      AdvanceClosedForm(position, speed, frames - 1);
    }
  }

  /** At a positive speed the script only moves forward. */
  lemma AdvanceMonotone(position: real, speed: real, m: nat, n: nat)
    requires speed >= 0.0 && m <= n
    ensures Advance(position, speed, m) <= Advance(position, speed, n)
  {
    AdvanceClosedForm(position, speed, m);
    AdvanceClosedForm(position, speed, n);
    assert (m as real) * speed <= (n as real) * speed;
  }

  /** A value read back from the saved settings, by its JavaScript type. */
  datatype JsonValue = JNumber(n: real) | JBool(b: bool) | JOther

  datatype SavedSettings = SavedSettings(speed: JsonValue, size: JsonValue, mirrored: JsonValue)

  /** The settings as saved. */
  datatype Settings = Settings(speed: real, size: real, mirrored: bool)

  class Prompter {
    var isScrolling: bool
    var speed: real
    var size: real
    var isMirrored: bool
    var scrollPosition: real
    /** Whether the scrolling container is mounted. */
    var hasContainer: bool
    /** The settings in storage. */
    var stored: Settings

    /** The stored settings follow the current ones. */
    ghost predicate Valid()
      reads this
    {
      stored == Settings(speed, size, isMirrored)
    }

    /**
     * Opening the view: the defaults (speed 2, size 6, not mirrored), except that a saved
     * setting of the right type replaces its default, as it is and without clamping.
     */
    constructor(saved: Option<SavedSettings>, mounted: bool)
      ensures Valid()
      ensures !isScrolling && scrollPosition == 0.0 && hasContainer == mounted
      ensures speed == (if saved.Some? && saved.value.speed.JNumber? then saved.value.speed.n else DefaultSpeed)
      ensures size == (if saved.Some? && saved.value.size.JNumber? then saved.value.size.n else DefaultSize)
      ensures isMirrored == (saved.Some? && saved.value.mirrored.JBool? && saved.value.mirrored.b)
    {
      var v, s, m := DefaultSpeed, DefaultSize, false;
      if saved.Some? {
        if saved.value.speed.JNumber? { v := saved.value.speed.n; }
        if saved.value.size.JNumber? { s := saved.value.size.n; }
        if saved.value.mirrored.JBool? { m := saved.value.mirrored.b; }
      }
      isScrolling, speed, size, isMirrored := false, v, s, m;
      scrollPosition, hasContainer := 0.0, mounted;
      stored := Settings(v, s, m);
    }

    /** `handlePlayPause`. */
    method PlayPause()
      modifies this`isScrolling
      ensures isScrolling == !old(isScrolling)
    {
      isScrolling := !isScrolling;
    }

    /** `handleReset`: with the container mounted, scrolling stops and the script returns to the top. */
    method Reset()
      modifies this`isScrolling, this`scrollPosition
      ensures hasContainer ==> !isScrolling && scrollPosition == 0.0
      ensures !hasContainer ==> isScrolling == old(isScrolling) && scrollPosition == old(scrollPosition)
    {
      if hasContainer {
        isScrolling := false;
        scrollPosition := 0.0;
      }
    }

    /** The mirror button. */
    method ToggleMirror()
      requires Valid()
      modifies this`isMirrored, this`stored
      ensures Valid()
      ensures isMirrored == !old(isMirrored)
    {
      isMirrored := !isMirrored;
      stored := Settings(speed, size, isMirrored);
    }

    method DecreaseSize()
      requires Valid()
      modifies this`size, this`stored
      ensures Valid()
      ensures size == SizeDown(old(size))
    {
      size := SizeDown(size);
      stored := Settings(speed, size, isMirrored);
    }

    method IncreaseSize()
      requires Valid()
      modifies this`size, this`stored
      ensures Valid()
      ensures size == SizeUp(old(size))
    {
      size := SizeUp(size);
      stored := Settings(speed, size, isMirrored);
    }

    method DecreaseSpeed()
      requires Valid()
      modifies this`speed, this`stored
      ensures Valid()
      ensures speed == SpeedDown(old(speed))
    {
      speed := SpeedDown(speed);
      stored := Settings(speed, size, isMirrored);
    }

    method IncreaseSpeed()
      requires Valid()
      modifies this`speed, this`stored
      ensures Valid()
      ensures speed == SpeedUp(old(speed))
    {
      speed := SpeedUp(speed);
      stored := Settings(speed, size, isMirrored);
    }

    /** `scrollStep`: one animation frame moves the script by a tenth of the speed. */
    method ScrollStep()
      modifies this`scrollPosition
      ensures hasContainer ==> scrollPosition == Advance(old(scrollPosition), speed, 1)
      ensures !hasContainer ==> scrollPosition == old(scrollPosition)
    {
      if hasContainer {
        scrollPosition := scrollPosition + speed / 10.0;
      }
    }

    /** The key handler: Space plays or pauses; Escape asks to close the view. */
    method HandleKeyDown(code: string) returns (close: bool)
      modifies this`isScrolling
      ensures close <==> code == "Escape"
      ensures code == "Space" ==> isScrolling == !old(isScrolling)
      ensures code != "Space" ==> isScrolling == old(isScrolling)
    {
      close := false;
      if code == "Space" {
        PlayPause();
      } else if code == "Escape" {
        close := true;
      }
    }
  }
}
