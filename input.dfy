/**
 * The keyboard and mouse state machines that feed the cameras: double
 * buffered key and button states with press-edge detection, a smoothed
 * (weighted-average) mouse offset from the window centre, the wheel delta,
 * and a recentre request that waits until the window centre is known.
 *
 * The three copies of this code (the SDL utilities, the GLCamera1 and the
 * GLCamera2 versions) share one model; where they differ the model keeps
 * both forms side by side (the key predicates of GLCamera2, the key-buffer
 * sizes). Reads of SDL or Win32 state arrive as method parameters.
 */
module Input {
  import opened Geometry

  newtype byte = x: int | 0 <= x < 256

  /** SDL_NUM_SCANCODES, the size of the SDL utilities' key buffers. */
  const SdlScancodeCount: nat := 512
  /** The 256-entry buffers of the GLCamera1 (GetKeyboardState) and GLCamera2 keyboards. */
  const ShortKeyCount: nat := 256
  const ButtonCount: nat := 3
  const ButtonLeft: nat := 0
  const ButtonRight: nat := 1
  const ButtonMiddle: nat := 2
  /** HISTORY_BUFFER_SIZE: the number of (x, y) pairs the filter remembers. */
  const HistoryBufferSize: nat := 10
  const WheelDelta: int := 120
  const DefaultWeightModifier: real := 0.2

  // ---------------------------------------------------------------------------
  // Keyboard.
  // ---------------------------------------------------------------------------

  class Keyboard {
    const size: nat
    const first: array<byte>
    const second: array<byte>
    /** Which buffer the current-state pointer designates; the other is the previous state. */
    var currIsFirst: bool

    predicate Valid() {
      first.Length == size && second.Length == size && first != second
    }

    function Curr(): array<byte>
      reads this
    {
      if currIsFirst then first else second
    }

    function Prev(): array<byte>
      reads this
    {
      if currIsFirst then second else first
    }

    /** Both buffers zeroed, the current pointer on the first. */
    constructor (size: nat)
      ensures Valid() && this.size == size && fresh(first) && fresh(second) && currIsFirst
      ensures Curr()[..] == seq(size, _ => 0 as byte) && Prev()[..] == seq(size, _ => 0 as byte)
    {
      this.size := size;
      first := new byte[size](_ => 0 as byte);
      second := new byte[size](_ => 0 as byte);
      currIsFirst := true;
    }

    /**
     * Swaps the current and previous buffers, then copies the fresh snapshot
     * into the (new) current one: previous becomes the old current state.
     */
    method Update(snapshot: seq<byte>)
      requires Valid() && |snapshot| == size
      modifies this`currIsFirst, first, second
      ensures Valid()
      ensures Prev()[..] == old(Curr()[..])
      ensures Curr()[..] == snapshot
    {
      currIsFirst := !currIsFirst;
      var dst := Curr();
      for i := 0 to size
        modifies dst
        invariant dst[..i] == snapshot[..i]
        invariant Prev()[..] == old(Curr()[..])
      {
        dst[i] := snapshot[i];
      }
    }

    /** SDL utilities: a key is down when its state byte is nonzero. */
    predicate KeyDown(key: nat)
      requires Valid() && key < size
      reads this, first, second
    {
      Curr()[key] != 0
    }

    predicate KeyUp(key: nat)
      requires Valid() && key < size
      reads this, first, second
    {
      Curr()[key] == 0
    }

    /** Down now and up in the previous snapshot. */
    predicate KeyPressed(key: nat)
      requires Valid() && key < size
      reads this, first, second
    {
      Curr()[key] != 0 && Prev()[key] == 0
    }

    /** GLCamera2: a key is down when its state byte is exactly 1. */
    predicate KeyDownIsOne(key: nat)
      requires Valid() && key < size
      reads this, first, second
    {
      1 == Curr()[key]
    }

    /** GLCamera2's keyUp as written: the same test as its keyDown. */
    predicate KeyUpAsWritten(key: nat)
      requires Valid() && key < size
      reads this, first, second
    {
      1 == Curr()[key]
    }

    /** GLCamera2's keyUp as evidently intended: the negation of its keyDown. */
    predicate KeyUpIntended(key: nat)
      requires Valid() && key < size
      reads this, first, second
    {
      1 != Curr()[key]
    }

    predicate KeyPressedIsOne(key: nat)
      requires Valid() && key < size
      reads this, first, second
    {
      (1 == Curr()[key]) && !(1 == Prev()[key])
    }
  }

  /** Exactly one of keyDown and keyUp holds for every key. */
  lemma KeyDownXorUp(kb: Keyboard, key: nat)
    requires kb.Valid() && key < kb.size
    ensures kb.KeyDown(key) <==> !kb.KeyUp(key)
  {
  }

  /** A press edge is a key down now that was up in the previous snapshot. */
  lemma KeyPressedIsDownEdge(kb: Keyboard, key: nat)
    requires kb.Valid() && key < kb.size
    ensures kb.KeyPressed(key) <==> kb.KeyDown(key) && kb.Prev()[key] == 0
    ensures kb.KeyPressed(key) ==> kb.KeyDown(key)
  {
  }

  /** As written, GLCamera2's keyUp agrees with its keyDown on every key. */
  lemma KeyUpAsWrittenIsKeyDown(kb: Keyboard, key: nat)
    requires kb.Valid() && key < kb.size
    ensures kb.KeyUpAsWritten(key) == kb.KeyDownIsOne(key)
  {
  }

  /** So a key held down reads as both down and up. */
  lemma HeldKeyReadsUpAsWritten(kb: Keyboard, key: nat)
    requires kb.Valid() && key < kb.size && kb.Curr()[key] == 1
    ensures kb.KeyDownIsOne(key) && kb.KeyUpAsWritten(key)
  {
  }

  /** The intended keyUp is exactly "not down", the other form of exactly one of the two holding. */
  lemma KeyUpIntendedIsNotDown(kb: Keyboard, key: nat)
    requires kb.Valid() && key < kb.size
    ensures kb.KeyUpIntended(key) <==> !kb.KeyDownIsOne(key)
  {
  }

  /**
   * On the 0/1 bytes SDL reports, the GLCamera2 predicates agree with the
   * utilities' ones, keyUp included once corrected.
   */
  lemma GLCamera2AgreesOnBinaryStates(kb: Keyboard, key: nat)
    requires kb.Valid() && key < kb.size
    requires kb.Curr()[key] <= 1 && kb.Prev()[key] <= 1
    ensures kb.KeyDownIsOne(key) <==> kb.KeyDown(key)
    ensures kb.KeyUpIntended(key) <==> kb.KeyUp(key)
    ensures kb.KeyPressedIsOne(key) <==> kb.KeyPressed(key)
  {
  }

  // ---------------------------------------------------------------------------
  // Mouse filtering: the history and the weighted average.
  // ---------------------------------------------------------------------------

  /** The history with the new (x, y) pair at the front and the oldest pair dropped. */
  function ShiftIn(h: seq<real>, x: real, y: real): seq<real>
    requires |h| >= 2
  {
    [x, y] + h[..|h| - 2]
  }

  /** The new pair is in front and every older entry moves back one pair; the oldest pair is dropped. */
  lemma ShiftInMovesPairsBack(h: seq<real>, x: real, y: real)
    requires |h| >= 2
    ensures |ShiftIn(h, x, y)| == |h| && ShiftIn(h, x, y)[0] == x && ShiftIn(h, x, y)[1] == y
    ensures forall j :: 2 <= j < |h| ==> ShiftIn(h, x, y)[j] == h[j - 2]
  {
  }

  /** w^n, built as the filter builds its running weight: by repeated multiplication. */
  function Pow(w: real, n: nat): real
    decreases n
  {
    if n == 0 then 1.0 else Pow(w, n - 1) * w
  }

  /** The sum of the first n weights, w^0 + ... + w^(n-1). */
  function WeightTotal(w: real, n: nat): real
    decreases n
  {
    if n == 0 then 0.0 else WeightTotal(w, n - 1) + 1.0 * Pow(w, n - 1)
  }

  /** The sum over the first n pairs of component `axis` (0 for x, 1 for y) times w^i. */
  function WeightedSum(h: seq<real>, axis: nat, w: real, n: nat): real
    requires axis < 2 && 2 * n <= |h|
    decreases n
  {
    if n == 0 then 0.0 else WeightedSum(h, axis, w, n - 1) + h[2 * (n - 1) + axis] * Pow(w, n - 1)
  }

  /** One more step of the running weight. */
  lemma PowStep(w: real, k: nat, c: real)
    requires c == Pow(w, k)
    ensures c * w == Pow(w, k + 1)
  {
  }

  /** One more step of a running weighted sum. */
  lemma SumStep(h: seq<real>, axis: nat, w: real, k: nat, a: real, c: real)
    requires axis < 2 && 2 * (k + 1) <= |h|
    requires a == WeightedSum(h, axis, w, k) && c == Pow(w, k)
    ensures a + h[2 * k + axis] * c == WeightedSum(h, axis, w, k + 1)
  {
  }

  /** One pass of the filter loop keeps its running sums and weight equal to the definitions. */
  lemma FilterStep(h: seq<real>, w: real, k: nat, ax: real, ay: real, at: real, c: real,
                   nx: real, ny: real, nt: real, nc: real)
    requires 2 * (k + 1) <= |h|
    requires ax == WeightedSum(h, 0, w, k) && ay == WeightedSum(h, 1, w, k)
    requires at == WeightTotal(w, k) && c == Pow(w, k)
    requires nx == ax + h[k * 2] * c && ny == ay + h[k * 2 + 1] * c
    requires nt == at + 1.0 * c && nc == c * w
    ensures nx == WeightedSum(h, 0, w, k + 1) && ny == WeightedSum(h, 1, w, k + 1)
    ensures nt == WeightTotal(w, k + 1) && nc == Pow(w, k + 1)
  {
    assert nx == WeightedSum(h, 0, w, k + 1) by { SumStep(h, 0, w, k, ax, c); }
    assert ny == WeightedSum(h, 1, w, k + 1) by { SumStep(h, 1, w, k, ay, c); }
    assert nc == Pow(w, k + 1) by { PowStep(w, k, c); }
  }

  /**
   * The filtered component: the weighted average over all |h| / 2 pairs of
   * the history. (The count is written |h| / 2 rather than as the constant
   * so that the verifier does not unroll the sums into polynomials.)
   */
  function FilteredValue(h: seq<real>, axis: nat, w: real): real
    requires axis < 2 && |h| % 2 == 0
    requires WeightTotal(w, |h| / 2) != 0.0
  {
    WeightedSum(h, axis, w, |h| / 2) / WeightTotal(w, |h| / 2)
  }

  lemma {:induction false} PowNonNegative(w: real, n: nat)
    requires w >= 0.0
    ensures Pow(w, n) >= 0.0
    decreases n
  {
    if n > 0 {
      PowNonNegative(w, n - 1);
      MulNonNegative(Pow(w, n - 1), w);
    }
  }

  /** With a nonnegative weight the divisor is at least 1: the filter never divides by zero. */
  lemma {:induction false} WeightTotalAtLeastOne(w: real, n: nat)
    requires w >= 0.0 && n >= 1
    ensures WeightTotal(w, n) >= 1.0
    decreases n
  {
    PowNonNegative(w, n - 1);
    if n > 1 {
      WeightTotalAtLeastOne(w, n - 1);
    }
  }

  /** The weights are w^0, w^1, ...: the running weight after n steps is w^n with w^0 = 1. */
  lemma {:induction false} PowZeroWeight(n: nat)
    requires n >= 1
    ensures Pow(0.0, n) == 0.0
    decreases n
  {
    if n > 1 {
      PowZeroWeight(n - 1);
    }
  }

  /** Weight 0 keeps only the newest pair: the total is 1 and the sum is the front entry. */
  lemma {:induction false} ZeroWeightKeepsNewest(h: seq<real>, axis: nat, n: nat)
    requires axis < 2 && 1 <= n && 2 * n <= |h|
    ensures WeightTotal(0.0, n) == 1.0
    ensures WeightedSum(h, axis, 0.0, n) == h[axis]
    decreases n
  {
    if n > 1 {
      ZeroWeightKeepsNewest(h, axis, n - 1);
      PowZeroWeight(n - 1);
    }
  }

  /** A history whose entries along `axis` all equal c sums to c times the total weight. */
  lemma {:induction false} ConstantHistorySum(h: seq<real>, axis: nat, w: real, n: nat, c: real)
    requires axis < 2 && 2 * n <= |h|
    requires forall i :: 0 <= i < n ==> h[2 * i + axis] == c
    ensures WeightedSum(h, axis, w, n) == c * WeightTotal(w, n)
    decreases n
  {
    if n > 0 {
      ConstantHistorySum(h, axis, w, n - 1, c);
      assert h[2 * (n - 1) + axis] == c;
    }
  }

  /** Filtering a steady movement reproduces it exactly. */
  lemma ConstantHistoryFilter(h: seq<real>, axis: nat, w: real, c: real)
    requires axis < 2 && |h| % 2 == 0
    requires WeightTotal(w, |h| / 2) != 0.0
    requires forall i :: 0 <= i < |h| / 2 ==> h[2 * i + axis] == c
    ensures FilteredValue(h, axis, w) == c
  {
    var n := |h| / 2;
    ConstantHistorySum(h, axis, w, n, c);
    DivideOut(WeightedSum(h, axis, w, n), WeightTotal(w, n), c);
  }

  /** With weight 0 the filter passes the newest sample through unchanged. */
  lemma ZeroWeightFilter(h: seq<real>, axis: nat)
    requires axis < 2 && 2 <= |h| && |h| % 2 == 0
    ensures WeightTotal(0.0, |h| / 2) == 1.0
    ensures FilteredValue(h, axis, 0.0) == h[axis]
  {
    ZeroWeightKeepsNewest(h, axis, |h| / 2);
  }

  /** Adding one weighted entry within [lo, hi] keeps the weighted sum within the bounds. */
  lemma BoundStep(lo: real, hi: real, t0: real, s0: real, p: real, e: real, t1: real, s1: real)
    requires lo * t0 <= s0 <= hi * t0 && p >= 0.0 && lo <= e <= hi
    requires t1 == t0 + p && s1 == s0 + e * p
    ensures lo * t1 <= s1 <= hi * t1
  {
    MulMonotone(lo, e, p);
    MulMonotone(e, hi, p);
    assert lo * (t0 + p) == lo * t0 + lo * p;
    assert hi * (t0 + p) == hi * t0 + hi * p;
  }

  /** Bounds on the entries bound the weighted sum s by the same multiples of the total weight t. */
  lemma {:induction false} WeightedSumBounds(h: seq<real>, axis: nat, w: real, n: nat, lo: real, hi: real, t: real, s: real)
    requires axis < 2 && 2 * n <= |h| && w >= 0.0
    requires forall i :: 0 <= i < n ==> lo <= h[2 * i + axis] <= hi
    requires t == WeightTotal(w, n) && s == WeightedSum(h, axis, w, n)
    ensures lo * t <= s <= hi * t
    decreases n
  {
    if n == 0 {
      assert t == 0.0 && s == 0.0;
      assert lo * 0.0 == 0.0 && hi * 0.0 == 0.0;
    } else {
      var t0, s0 := WeightTotal(w, n - 1), WeightedSum(h, axis, w, n - 1);
      WeightedSumBounds(h, axis, w, n - 1, lo, hi, t0, s0);
      var p := Pow(w, n - 1);
      PowNonNegative(w, n - 1);
      var e := h[2 * (n - 1) + axis];
      assert lo <= e <= hi;
      BoundStep(lo, hi, t0, s0, p, e, t, s);
    }
  }

  /**
   * With a nonnegative weight the filtered value is an average: it lies
   * between the smallest and the largest remembered entry.
   */
  lemma FilterStaysWithinHistory(h: seq<real>, axis: nat, w: real, lo: real, hi: real)
    requires axis < 2 && 2 <= |h| && |h| % 2 == 0 && w >= 0.0
    requires forall i :: 0 <= i < |h| / 2 ==> lo <= h[2 * i + axis] <= hi
    ensures WeightTotal(w, |h| / 2) >= 1.0
    ensures lo <= FilteredValue(h, axis, w) <= hi
  {
    var n := |h| / 2;
    var t, s := WeightTotal(w, n), WeightedSum(h, axis, w, n);
    assert t >= 1.0 by { WeightTotalAtLeastOne(w, n); }
    assert lo * t <= s <= hi * t by { WeightedSumBounds(h, axis, w, n, lo, hi, t, s); }
    assert lo <= s / t <= hi by { DivisionBounds(s, t, lo, hi); }
  }

  // ---------------------------------------------------------------------------
  // Window geometry.
  // ---------------------------------------------------------------------------

  /** A window handle: none, or a window with its client size. */
  datatype Window = NoWindow | Window(width: int, height: int)

  /** C++ integer division by 2, which truncates toward zero. */
  function HalfTowardZero(n: int): (h: int)
    ensures n >= 0 ==> 0 <= n - 2 * h <= 1
    ensures n < 0 ==> -1 <= n - 2 * h <= 0
  {
    if n >= 0 then n / 2 else -((-n) / 2)
  }

  /**
   * An offset of exactly one pixel either way is treated as jitter and
   * snapped to zero; every other offset is kept.
   */
  function SnapUnit(d: int): (r: real)
    ensures r == 0.0 <==> -1 <= d <= 1
    ensures d < -1 || d > 1 ==> r == d as real
  {
    if (if d < 0 then -d else d) == 1 then 0.0 else d as real
  }

  /** The wheel reading: the accumulated delta since the last update, in notches of 120. */
  function WheelReading(wheelDelta: int, prevWheelDelta: int): (r: real)
    ensures r * WheelDelta as real == (wheelDelta - prevWheelDelta) as real
    ensures r == 0.0 <==> wheelDelta == prevWheelDelta
  {
    (wheelDelta - prevWheelDelta) as real / WheelDelta as real
  }

  // ---------------------------------------------------------------------------
  // Mouse.
  // ---------------------------------------------------------------------------

  datatype MouseState = MouseState(
    window: Window, wheelDelta: int, prevWheelDelta: int, mouseWheel: real,
    distX: real, distY: real, weightModifier: real,
    moveToWindowCenterPending: bool, enableFiltering: bool, cursorVisible: bool,
    currIsFirst: bool, centreX: int, centreY: int, posX: int, posY: int)

  class Mouse {
    var window: Window
    var wheelDelta: int
    var prevWheelDelta: int
    var mouseWheel: real
    /** m_ptDistFromWindowCenter. */
    var distX: real
    var distY: real
    var weightModifier: real
    const filtered: array<real>
    /** HISTORY_BUFFER_SIZE (x, y) pairs, newest first. */
    const history: array<real>
    var moveToWindowCenterPending: bool
    var enableFiltering: bool
    var cursorVisible: bool
    const firstButtons: array<bool>
    const secondButtons: array<bool>
    var currIsFirst: bool
    var centreX: int
    var centreY: int
    var posX: int
    var posY: int

    predicate Valid() {
      filtered.Length == 2 && history.Length == 2 * HistoryBufferSize && filtered != history
      && firstButtons.Length == ButtonCount && secondButtons.Length == ButtonCount
      && firstButtons != secondButtons
    }

    function CurrButtons(): array<bool>
      reads this
    {
      if currIsFirst then firstButtons else secondButtons
    }

    function PrevButtons(): array<bool>
      reads this
    {
      if currIsFirst then secondButtons else firstButtons
    }

    function State(): MouseState
      reads this
    {
      MouseState(window, wheelDelta, prevWheelDelta, mouseWheel, distX, distY, weightModifier,
                 moveToWindowCenterPending, enableFiltering, cursorVisible, currIsFirst,
                 centreX, centreY, posX, posY)
    }

    /**
     * The singleton's initial state: detached, filtering on, cursor visible,
     * weight 0.2, every counter, position and buffer zero.
     */
    constructor ()
      ensures Valid() && fresh(filtered) && fresh(history) && fresh(firstButtons) && fresh(secondButtons)
      ensures State() == MouseState(NoWindow, 0, 0, 0.0, 0.0, 0.0, DefaultWeightModifier,
                                    false, true, true, true, 0, 0, 0, 0)
      ensures filtered[..] == [0.0, 0.0] && history[..] == seq(2 * HistoryBufferSize, _ => 0.0)
      ensures firstButtons[..] == [false, false, false] && secondButtons[..] == [false, false, false]
    {
      window := NoWindow;
      wheelDelta := 0;
      prevWheelDelta := 0;
      mouseWheel := 0.0;
      distX := 0.0;
      distY := 0.0;
      weightModifier := DefaultWeightModifier;
      filtered := new real[2](_ => 0.0);
      history := new real[2 * HistoryBufferSize](_ => 0.0);
      moveToWindowCenterPending := false;
      enableFiltering := true;
      cursorVisible := true;
      firstButtons := new bool[ButtonCount](_ => false);
      secondButtons := new bool[ButtonCount](_ => false);
      currIsFirst := true;
      centreX := 0;
      centreY := 0;
      posX := 0;
      posY := 0;
      new;
      assert firstButtons[..] == [false, false, false];
      assert secondButtons[..] == [false, false, false];
    }

    predicate ButtonDown(button: nat)
      requires Valid() && button < ButtonCount
      reads this, firstButtons, secondButtons
    {
      CurrButtons()[button]
    }

    predicate ButtonPressed(button: nat)
      requires Valid() && button < ButtonCount
      reads this, firstButtons, secondButtons
    {
      CurrButtons()[button] && !PrevButtons()[button]
    }

    predicate ButtonUp(button: nat)
      requires Valid() && button < ButtonCount
      reads this, firstButtons, secondButtons
    {
      !CurrButtons()[button]
    }

    /**
     * Without a window nothing happens and the result is false. Otherwise the
     * window is kept, the filtered pair, the history and both button buffers
     * are zeroed, the button pointers are reset, and the centre is half the
     * window size (C++ integer halves).
     */
    method Attach(w: Window) returns (ok: bool)
      requires Valid()
      modifies this, filtered, history, firstButtons, secondButtons
      ensures Valid()
      ensures ok <==> w != NoWindow
      ensures !ok ==> State() == old(State()) && unchanged(filtered, history, firstButtons, secondButtons)
      ensures ok ==> State() == old(State()).(window := w, currIsFirst := true,
                                              centreX := HalfTowardZero(w.width),
                                              centreY := HalfTowardZero(w.height))
      ensures ok ==> filtered[..] == [0.0, 0.0] && history[..] == seq(2 * HistoryBufferSize, _ => 0.0)
      ensures ok ==> firstButtons[..] == [false, false, false] && secondButtons[..] == [false, false, false]
    {
      if w == NoWindow {
        return false;
      }
      window := w;
      filtered[0] := 0.0;
      filtered[1] := 0.0;
      currIsFirst := true;
      forall i | 0 <= i < history.Length {
        history[i] := 0.0;
      }
      forall i | 0 <= i < ButtonCount {
        firstButtons[i] := false;
      }
      forall i | 0 <= i < ButtonCount {
        secondButtons[i] := false;
      }
      centreX := HalfTowardZero(w.width);
      centreY := HalfTowardZero(w.height);
      assert firstButtons[..] == [false, false, false];
      assert secondButtons[..] == [false, false, false];
      return true;
    }

    /** Forgets the window; the remembered cursor visibility survives for a later attach. */
    method Detach()
      modifies this`window
      ensures window == NoWindow
    {
      window := NoWindow;
    }

    method HideCursor(hidden: bool)
      modifies this`cursorVisible
      ensures cursorVisible == !hidden
    {
      cursorVisible := !hidden;
    }

    /** Accumulates a wheel message's delta. */
    method HandleMsg(delta: int)
      modifies this`wheelDelta
      ensures wheelDelta == old(wheelDelta) + delta
    {
      wheelDelta := wheelDelta + delta;
    }

    /** Records the cursor position it warps the cursor to. */
    method MoveTo(x: int, y: int)
      modifies this`posX, this`posY
      ensures posX == x && posY == y
    {
      posX := x;
      posY := y;
    }

    /**
     * Moves to the window centre when both of its coordinates are known
     * (nonzero); otherwise leaves a request for the next update.
     */
    method MoveToWindowCenter()
      modifies this`posX, this`posY, this`moveToWindowCenterPending
      ensures centreX != 0 && centreY != 0 ==>
        posX == centreX && posY == centreY && moveToWindowCenterPending == old(moveToWindowCenterPending)
      ensures !(centreX != 0 && centreY != 0) ==>
        posX == old(posX) && posY == old(posY) && moveToWindowCenterPending
    {
      if centreX != 0 && centreY != 0 {
        MoveTo(centreX, centreY);
      } else {
        moveToWindowCenterPending := true;
      }
    }

    method SetWeightModifier(weight: real)
      modifies this`weightModifier
      ensures weightModifier == weight
    {
      weightModifier := weight;
    }

    method SmoothMouse(smooth: bool)
      modifies this`enableFiltering
      ensures enableFiltering == smooth
    {
      enableFiltering := smooth;
    }

    /** Shifts the new pair into the front of the history, dropping the oldest pair. */
    method ShiftHistory(x: real, y: real)
      requires Valid()
      modifies history
      ensures history[..] == ShiftIn(old(history[..]), x, y)
    {
      var i := HistoryBufferSize - 1;
      while i > 0
        invariant 0 <= i < HistoryBufferSize
        invariant forall j :: 0 <= j < 2 * i + 2 ==> history[j] == old(history[j])
        invariant forall j :: 2 * i + 2 <= j < history.Length ==> history[j] == old(history[j - 2])
        decreases i
      {
        history[i * 2] := history[(i - 1) * 2];
        history[i * 2 + 1] := history[(i - 1) * 2 + 1];
        i := i - 1;
      }
      history[0] := x;
      history[1] := y;
      ShiftInMovesPairsBack(old(history[..]), x, y);
    }

    /**
     * The weighted sums of the x and y entries of a history and the total
     * weight, the weight of pair i being w^i (w is the weight modifier).
     */
    static method WeightedAverages(h: seq<real>, w: real) returns (averageX: real, averageY: real, averageTotal: real)
      requires |h| % 2 == 0
      ensures averageX == WeightedSum(h, 0, w, |h| / 2)
      ensures averageY == WeightedSum(h, 1, w, |h| / 2)
      ensures averageTotal == WeightTotal(w, |h| / 2)
    {
      var currentWeight := 1.0;
      averageX, averageY, averageTotal := 0.0, 0.0, 0.0;
      for k := 0 to |h| / 2
        invariant averageX == WeightedSum(h, 0, w, k)
        invariant averageY == WeightedSum(h, 1, w, k)
        invariant averageTotal == WeightTotal(w, k)
        invariant currentWeight == Pow(w, k)
      {
        var historyX, historyY := h[k * 2], h[k * 2 + 1];
        var nextX, nextY := averageX + historyX * currentWeight, averageY + historyY * currentWeight;
        var nextTotal, nextWeight := averageTotal + 1.0 * currentWeight, currentWeight * w;
        FilterStep(h, w, k, averageX, averageY, averageTotal, currentWeight, nextX, nextY, nextTotal, nextWeight);
        averageX, averageY, averageTotal, currentWeight := nextX, nextY, nextTotal, nextWeight;
      }
    }

    /**
     * Shifts the new pair into the history and stores the weighted average of
     * the whole history in `filtered`.
     */
    method PerformMouseFiltering(x: real, y: real)
      requires Valid()
      requires WeightTotal(weightModifier, history.Length / 2) != 0.0
      modifies history, filtered
      ensures history[..] == ShiftIn(old(history[..]), x, y)
      ensures filtered[..] == [FilteredValue(history[..], 0, weightModifier),
                               FilteredValue(history[..], 1, weightModifier)]
    {
      ShiftHistory(x, y);
      var averageX, averageY, averageTotal := WeightedAverages(history[..], weightModifier);
      filtered[0] := averageX / averageTotal;
      filtered[1] := averageY / averageTotal;
    }

    /** Swaps the button buffers and writes the new states into the current one. */
    method UpdateButtons(buttons: seq<bool>)
      requires Valid() && |buttons| == ButtonCount
      modifies this`currIsFirst, firstButtons, secondButtons
      ensures currIsFirst == !old(currIsFirst)
      ensures PrevButtons()[..] == old(CurrButtons()[..]) && CurrButtons()[..] == buttons
    {
      currIsFirst := !currIsFirst;
      var dst := CurrButtons();
      dst[0] := buttons[0];
      dst[1] := buttons[1];
      dst[2] := buttons[2];
      assert dst[..] == buttons;
    }

    /** Reads the wheel: the delta accumulated since the last read, in notches. */
    method UpdateWheel()
      modifies this`mouseWheel, this`prevWheelDelta
      ensures mouseWheel == WheelReading(old(wheelDelta), old(prevWheelDelta))
      ensures prevWheelDelta == wheelDelta
    {
      mouseWheel := (wheelDelta - prevWheelDelta) as real / WheelDelta as real;
      prevWheelDelta := wheelDelta;
    }

    /**
     * Recomputes the centre from the window size and retries a pending
     * recentre, which stays pending while a centre coordinate is zero.
     */
    method UpdateCentre(width: int, height: int)
      modifies this`centreX, this`centreY, this`moveToWindowCenterPending, this`posX, this`posY
      ensures centreX == HalfTowardZero(width) && centreY == HalfTowardZero(height)
      ensures moveToWindowCenterPending <==>
        old(moveToWindowCenterPending) && (centreX == 0 || centreY == 0)
      ensures old(moveToWindowCenterPending) && centreX != 0 && centreY != 0 ==>
        posX == centreX && posY == centreY
      ensures !(old(moveToWindowCenterPending) && centreX != 0 && centreY != 0) ==>
        posX == old(posX) && posY == old(posY)
    {
      centreX, centreY := HalfTowardZero(width), HalfTowardZero(height);
      if moveToWindowCenterPending {
        moveToWindowCenterPending := false;
        MoveToWindowCenter();
      }
    }

    /**
     * Records the cursor position and its offset from the centre (y up),
     * snapped, then filtered when filtering is on.
     */
    method UpdateOffset(mouseX: int, mouseY: int)
      requires Valid()
      requires enableFiltering ==> WeightTotal(weightModifier, history.Length / 2) != 0.0
      modifies this`posX, this`posY, this`distX, this`distY, history, filtered
      ensures posX == mouseX && posY == mouseY
      ensures !enableFiltering ==>
        distX == SnapUnit(mouseX - centreX) && distY == SnapUnit(centreY - mouseY)
        && history[..] == old(history[..])
      ensures enableFiltering ==>
        history[..] == ShiftIn(old(history[..]), SnapUnit(mouseX - centreX), SnapUnit(centreY - mouseY))
        && distX == FilteredValue(history[..], 0, weightModifier)
        && distY == FilteredValue(history[..], 1, weightModifier)
    {
      var offsetX, offsetY := SnapUnit(mouseX - centreX), SnapUnit(centreY - mouseY);
      posX, posY := mouseX, mouseY;
      distX, distY := offsetX, offsetY;
      if enableFiltering {
        ghost var before := history[..];
        assert before == old(history[..]);
        PerformMouseFiltering(offsetX, offsetY);
        ghost var after := history[..];
        distX, distY := filtered[0], filtered[1];
        assert history[..] == after;
      }
    }

    /**
     * One input frame, from the button states, cursor position and window
     * size read this frame: the button buffers swap and the current one takes
     * the new states; the wheel reading is the delta since the last update;
     * the centre is recomputed; a pending recentre is retried (and stays
     * pending while a centre coordinate is still zero); the cursor position
     * read this frame overrides any recentre; the offset of the cursor from
     * the centre (y up) is snapped and, with filtering on, replaced by its
     * filtered value. Attachment, weight, filtering and cursor flags stay.
     */
    method Update(buttons: seq<bool>, mouseX: int, mouseY: int, width: int, height: int)
      requires Valid() && |buttons| == ButtonCount
      requires enableFiltering ==> WeightTotal(weightModifier, history.Length / 2) != 0.0
      modifies this, history, filtered, firstButtons, secondButtons
      ensures Valid()
      ensures PrevButtons()[..] == old(CurrButtons()[..]) && CurrButtons()[..] == buttons
      // The pending flag and the offset are given by the ensures that follow;
      // here they only join the fields that change.
      ensures State() == old(State()).(
        currIsFirst := !old(currIsFirst),
        mouseWheel := WheelReading(old(wheelDelta), old(prevWheelDelta)),
        prevWheelDelta := old(wheelDelta),
        centreX := HalfTowardZero(width), centreY := HalfTowardZero(height),
        moveToWindowCenterPending := moveToWindowCenterPending,
        posX := mouseX, posY := mouseY, distX := distX, distY := distY)
      ensures moveToWindowCenterPending <==>
        old(moveToWindowCenterPending) && (HalfTowardZero(width) == 0 || HalfTowardZero(height) == 0)
      ensures !enableFiltering ==>
        distX == SnapUnit(mouseX - centreX) && distY == SnapUnit(centreY - mouseY)
        && history[..] == old(history[..])
      ensures enableFiltering ==>
        history[..] == ShiftIn(old(history[..]), SnapUnit(mouseX - centreX), SnapUnit(centreY - mouseY))
        && distX == FilteredValue(history[..], 0, weightModifier)
        && distY == FilteredValue(history[..], 1, weightModifier)
      ensures WheelReading(wheelDelta, prevWheelDelta) == 0.0
    {
      UpdateButtons(buttons);
      UpdateWheel();
      UpdateCentre(width, height);
      UpdateOffset(mouseX, mouseY);
    }
  }

  /** A press edge of a button is a button down now that was up before; up is not down. */
  lemma ButtonPredicates(m: Mouse, button: nat)
    requires m.Valid() && button < ButtonCount
    ensures m.ButtonPressed(button) <==> m.ButtonDown(button) && !m.PrevButtons()[button]
    ensures m.ButtonUp(button) <==> !m.ButtonDown(button)
  {
  }
}
