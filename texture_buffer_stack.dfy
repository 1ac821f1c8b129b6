/**
 * `TextureBufferStack`: a cursor over a growable list of render targets.
 * Pushing past the top allocates a new buffer; pushing below it reuses the
 * buffer already there; changing the size, the interpolation or the depth
 * attachment throws every buffer away. GL objects are abstract: a buffer
 * is its allocation number, taken from a counter of created objects.
 *
 * The same structure appears in four crates. They differ only in their
 * defaults, in whether `set_resolution` ignores non-positive sizes, and,
 * in the oldest one, in having neither setters nor a fixed-size guard;
 * the named constructors below give each crate's starting state.
 */
module TextureBufferStacks {
  import opened Wrappers
  import Text

  /** `glow::LINEAR` and `WebGl2RenderingContext::LINEAR`. */
  const Linear: int := 0x2601

  /** `WebGl2RenderingContext::NEAREST`, which the oldest crate's buffers always use. */
  const Nearest: int := 0x2600

  /** A render target: its framebuffer and texture, as one allocation number, and the parameters it was made with. */
  datatype TextureBuffer = TextureBuffer(id: nat, width: int, height: int, interpolation: int, depthbuffer: bool)

  /**
   * The stack's fields, with `created` the number of GL objects created
   * so far and `checksSize` whether `set_resolution` ignores a non-positive
   * width or height.
   */
  datatype StackState = StackState(
    stack: seq<TextureBuffer>,
    width: int,
    height: int,
    interpolation: int,
    cursor: nat,
    maxCursor: nat,
    depthbufferActive: bool,
    created: nat,
    checksSize: bool)

  /**
   * The stack's invariant: the cursor never passes the top, the high-water
   * mark is the length, and the buffers are distinct allocations made in
   * stack order.
   */
  predicate Valid(s: StackState)
  {
    && s.cursor <= |s.stack| == s.maxCursor
    && (forall i :: 0 <= i < |s.stack| ==> s.stack[i].id < s.created)
    && (forall i, j :: 0 <= i < j < |s.stack| ==> s.stack[i].id < s.stack[j].id)
  }

  /** `reset_stack`: every buffer is deleted. */
  function ResetOf(s: StackState): StackState
  {
    s.(cursor := 0, maxCursor := 0, stack := [])
  }

  function SetDepthbufferOf(s: StackState, value: bool): StackState
  {
    if s.depthbufferActive != value then ResetOf(s.(depthbufferActive := value)) else s
  }

  function SetResolutionOf(s: StackState, width: int, height: int): StackState
  {
    if s.checksSize && (width <= 0 || height <= 0) then s
    else if s.width != width || s.height != height then ResetOf(s.(width := width, height := height))
    else s
  }

  function SetInterpolationOf(s: StackState, interpolation: int): StackState
  {
    if s.interpolation != interpolation then ResetOf(s.(interpolation := interpolation)) else s
  }

  /** `push`: allocate at the top, otherwise reuse, then move the cursor and the high-water mark. */
  function PushOf(s: StackState): StackState
  {
    var s1 := if |s.stack| == s.cursor then
      s.(stack := s.stack + [TextureBuffer(s.created, s.width, s.height, s.interpolation, s.depthbufferActive)],
         created := s.created + 1)
    else s;
    var cursor := s1.cursor + 1;
    s1.(cursor := cursor, maxCursor := if cursor > s1.maxCursor then cursor else s1.maxCursor)
  }

  const CursorZeroMessage := "Bad texture buffer stack access on cursor == 0."

  /** `get_current`: the buffer under the cursor. */
  function GetCurrentOf(s: StackState): Result<TextureBuffer, string>
    requires Valid(s)
  {
    if s.cursor == 0 then Err(CursorZeroMessage) else Ok(s.stack[s.cursor - 1])
  }

  /** `pop`: fails at the bottom, otherwise moves the cursor down; the buffer stays for reuse. */
  function PopOf(s: StackState): Result<StackState, string>
    requires Valid(s)
  {
    match GetCurrentOf(s)
    case Err(e) => Err(e)
    case Ok(_) => Ok(s.(cursor := s.cursor - 1))
  }

  /** `get_nth`: the buffer `n` places above the current one, range-checked against the whole list. */
  function GetNthOf(s: StackState, n: int): Result<TextureBuffer, string>
  {
    var index := s.cursor + n - 1;
    if index < 0 || index >= |s.stack| then Err("Bad texture buffer sttack access on index == " + Text.IntToString(index))
    else Ok(s.stack[index])
  }

  /** `assert_no_stack`. */
  function AssertNoStackOf(s: StackState): Result<(), string>
  {
    if s.cursor != 0 then Err("Texture buffer stack cursor not zero, '" + Text.NatToString(s.cursor) + "' instead.")
    else Ok(())
  }

  /** Resetting, the setters and a successful pop keep the invariant. */
  lemma OperationsKeepValid(s: StackState, value: bool, width: int, height: int, interpolation: int)
    requires Valid(s)
    ensures Valid(ResetOf(s))
    ensures Valid(SetDepthbufferOf(s, value)) && Valid(SetResolutionOf(s, width, height)) && Valid(SetInterpolationOf(s, interpolation))
    ensures PopOf(s).Ok? ==> Valid(PopOf(s).value)
  {
  }

  /** A push keeps the invariant: a new buffer's number is above every earlier one. */
  lemma PushKeepsValid(s: StackState)
    requires Valid(s)
    ensures Valid(PushOf(s))
  {
    if |s.stack| == s.cursor {
      var p := PushOf(s);
      var b := TextureBuffer(s.created, s.width, s.height, s.interpolation, s.depthbufferActive);
      assert p.stack == s.stack + [b];
      forall i, j | 0 <= i < j < |p.stack| ensures p.stack[i].id < p.stack[j].id {
        if j == |s.stack| {
          assert p.stack[i] == s.stack[i];
        }
      }
    }
  }

  /**
   * A push allocates exactly when the cursor is at the top of the list:
   * the new buffer is a fresh allocation with the current parameters, and
   * the buffers below are kept as they were.
   */
  lemma PushAllocatesOnlyAtTop(s: StackState)
    requires Valid(s)
    ensures PushOf(s).cursor == s.cursor + 1
    ensures PushOf(s).stack[..|s.stack|] == s.stack
    ensures s.cursor < |s.stack| ==> PushOf(s).stack == s.stack && PushOf(s).created == s.created
    ensures s.cursor == |s.stack| ==>
              PushOf(s).stack == s.stack + [TextureBuffer(s.created, s.width, s.height, s.interpolation, s.depthbufferActive)] &&
              PushOf(s).created == s.created + 1
    ensures forall i :: 0 <= i < |s.stack| ==> PushOf(s).stack[i].id != s.created
  {
  }

  /** The current buffer is the one below the cursor; it fails exactly at cursor 0, and `get_nth(0)` is the same lookup. */
  lemma CurrentAndNth(s: StackState)
    requires Valid(s)
    ensures GetCurrentOf(s).Err? <==> s.cursor == 0
    ensures GetCurrentOf(s).Ok? ==> GetCurrentOf(s).value == s.stack[s.cursor - 1]
    ensures GetCurrentOf(s).Ok? ==> GetNthOf(s, 0) == GetCurrentOf(s)
    ensures GetCurrentOf(s).Err? ==> GetNthOf(s, 0).Err?
  {
  }

  /** `get_nth(n)` succeeds exactly when `cursor + n - 1` indexes the list. */
  lemma NthRange(s: StackState, n: int)
    ensures GetNthOf(s, n).Ok? <==> 0 <= s.cursor + n - 1 < |s.stack|
    ensures GetNthOf(s, n).Ok? ==> GetNthOf(s, n).value == s.stack[s.cursor + n - 1]
  {
  }

  /** Pop at the bottom fails and changes nothing; otherwise it only lowers the cursor. */
  lemma PopAtBottom(s: StackState)
    requires Valid(s)
    ensures PopOf(s).Err? <==> s.cursor == 0
    ensures PopOf(s).Err? ==> PopOf(s).error == CursorZeroMessage
    ensures PopOf(s).Ok? ==> PopOf(s).value == s.(cursor := s.cursor - 1)
  {
  }

  /**
   * A pop followed by a push returns to the same buffer without
   * allocating: the stack is reused, not rebuilt.
   */
  lemma PushAfterPopReuses(s: StackState)
    requires Valid(s) && s.cursor > 0
    ensures PushOf(PopOf(s).value) == s
  {
  }

  /** A setter resets the stack only when its value changes. */
  lemma SettersResetOnlyOnChange(s: StackState, value: bool, width: int, height: int, interpolation: int)
    ensures SetDepthbufferOf(s, value) == (if s.depthbufferActive == value then s else s.(depthbufferActive := value, cursor := 0, maxCursor := 0, stack := []))
    ensures SetInterpolationOf(s, interpolation) == (if s.interpolation == interpolation then s else s.(interpolation := interpolation, cursor := 0, maxCursor := 0, stack := []))
    ensures s.width == width && s.height == height ==> SetResolutionOf(s, width, height) == s
    ensures (s.width != width || s.height != height) && (!s.checksSize || (width > 0 && height > 0)) ==>
              SetResolutionOf(s, width, height) == s.(width := width, height := height, cursor := 0, maxCursor := 0, stack := [])
  {
  }

  /** With the size guard, a non-positive size is ignored. */
  lemma GuardIgnoresNonPositiveSize(s: StackState, width: int, height: int)
    requires s.checksSize && (width <= 0 || height <= 0)
    ensures SetResolutionOf(s, width, height) == s
  {
  }

  /** Without it, as in the screen-sim crate, even a non-positive new size empties the stack. */
  lemma UnguardedResetsOnAnySize(s: StackState, width: int, height: int)
    requires !s.checksSize && (s.width != width || s.height != height)
    ensures SetResolutionOf(s, width, height).stack == [] && SetResolutionOf(s, width, height).width == width
  {
  }

  /** `assert_no_stack` succeeds exactly at cursor 0. */
  lemma NoStackIffCursorZero(s: StackState)
    ensures AssertNoStackOf(s).Ok? <==> s.cursor == 0
  {
  }

  function PushesOf(s: StackState, k: nat): StackState
    decreases k
  {
    if k == 0 then s else PushesOf(PushOf(s), k - 1)
  }

  /**
   * In the fixed-size stack, which has no setters and hence no reset,
   * pushes never shrink the list: after `k` pushes from the top it has
   * grown by exactly `k` fresh buffers.
   */
  lemma {:induction false} PushesFromTopGrow(s: StackState, k: nat)
    requires Valid(s) && s.cursor == |s.stack|
    ensures Valid(PushesOf(s, k))
    ensures |PushesOf(s, k).stack| == |s.stack| + k && PushesOf(s, k).cursor == s.cursor + k
    ensures PushesOf(s, k).stack[..|s.stack|] == s.stack
    ensures PushesOf(s, k).created == s.created + k
    decreases k
  {
    if k > 0 {
      PushKeepsValid(s);
      PushAllocatesOnlyAtTop(s);
      var p := PushOf(s);
      PushesFromTopGrow(p, k - 1);
      assert PushesOf(s, k) == PushesOf(p, k - 1);
      assert PushesOf(p, k - 1).stack[..|s.stack|] == PushesOf(p, k - 1).stack[..|p.stack|][..|s.stack|];
    }
  }

  class TextureBufferStack {
    var stack: seq<TextureBuffer>
    var width: int
    var height: int
    var interpolation: int
    var cursor: nat
    var maxCursor: nat
    var depthbufferActive: bool
    var created: nat
    const checksSize: bool

    function State(): StackState
      reads this
    {
      StackState(stack, width, height, interpolation, cursor, maxCursor, depthbufferActive, created, checksSize)
    }

    /** display-sim-render's `new`: 800x600, linear, no depth buffer. */
    constructor Render()
      ensures State() == StackState([], 800, 600, Linear, 0, 0, false, 0, true)
      ensures Valid(State())
    {
      stack, width, height, interpolation := [], 800, 600, Linear;
      cursor, maxCursor, depthbufferActive, created := 0, 0, false, 0;
      checksSize := true;
    }

    /** screen-sim-web-render's `new`: every field at its type's default. */
    constructor Web()
      ensures State() == StackState([], 0, 0, 0, 0, 0, false, 0, true)
      ensures Valid(State())
    {
      stack, width, height, interpolation := [], 0, 0, 0;
      cursor, maxCursor, depthbufferActive, created := 0, 0, false, 0;
      checksSize := true;
    }

    /** The screen-sim crate's `new`: size 0x0, linear, and no size guard. */
    constructor ScreenSim()
      ensures State() == StackState([], 0, 0, Linear, 0, 0, false, 0, false)
      ensures Valid(State())
    {
      stack, width, height, interpolation := [], 0, 0, Linear;
      cursor, maxCursor, depthbufferActive, created := 0, 0, false, 0;
      checksSize := false;
    }

    /** The oldest crate's `new(width, height)`: every buffer has a depth attachment and nearest filtering. */
    constructor Fixed(width: int, height: int)
      ensures State() == StackState([], width, height, Nearest, 0, 0, true, 0, false)
      ensures Valid(State())
    {
      stack, this.width, this.height, interpolation := [], width, height, Nearest;
      cursor, maxCursor, depthbufferActive, created := 0, 0, true, 0;
      checksSize := false;
    }

    method ResetStack()
      modifies this
      ensures State() == ResetOf(old(State()))
    {
      cursor := 0;
      maxCursor := 0;
      stack := [];
    }

    method SetDepthbuffer(value: bool)
      modifies this
      ensures State() == SetDepthbufferOf(old(State()), value)
    {
      if depthbufferActive != value {
        depthbufferActive := value;
        ResetStack();
      }
    }

    method SetResolution(width: int, height: int)
      modifies this
      ensures State() == SetResolutionOf(old(State()), width, height)
    {
      if checksSize && (width <= 0 || height <= 0) {
        return;
      }
      if this.width != width || this.height != height {
        this.width := width;
        this.height := height;
        ResetStack();
      }
    }

    method SetInterpolation(interpolation: int)
      modifies this
      ensures State() == SetInterpolationOf(old(State()), interpolation)
    {
      if this.interpolation != interpolation {
        this.interpolation := interpolation;
        ResetStack();
      }
    }

    method Push()
      modifies this
      ensures State() == PushOf(old(State()))
    {
      if |stack| == cursor {
        stack := stack + [TextureBuffer(created, width, height, interpolation, depthbufferActive)];
        created := created + 1;
      }
      cursor := cursor + 1;
      if cursor > maxCursor {
        maxCursor := cursor;
      }
    }

    method GetCurrent() returns (r: Result<TextureBuffer, string>)
      requires Valid(State())
      ensures r == GetCurrentOf(State())
    {
      if cursor == 0 {
        return Err(CursorZeroMessage);
      }
      return Ok(stack[cursor - 1]);
    }

    method Pop() returns (r: Result<(), string>)
      requires Valid(State())
      modifies this
      ensures PopOf(old(State())).Ok? ==> r.Ok? && State() == PopOf(old(State())).value
      ensures PopOf(old(State())).Err? ==> r == Err(PopOf(old(State())).error) && State() == old(State())
    {
      var current := GetCurrent();
      if current.Err? {
        return Err(current.error);
      }
      cursor := cursor - 1;
      return Ok(());
    }

    method GetNth(n: int) returns (r: Result<TextureBuffer, string>)
      ensures r == GetNthOf(State(), n)
    {
      var index := cursor + n - 1;
      if index < 0 || index >= |stack| {
        return Err("Bad texture buffer sttack access on index == " + Text.IntToString(index));
      }
      return Ok(stack[index]);
    }

    method AssertNoStack() returns (r: Result<(), string>)
      ensures r == AssertNoStackOf(State())
    {
      if cursor != 0 {
        return Err("Texture buffer stack cursor not zero, '" + Text.NatToString(cursor) + "' instead.");
      }
      return Ok(());
    }
  }

  /**
   * A render pass as the drawing code runs it: push two targets, pop both,
   * and the stack is back at the bottom with both buffers kept for the
   * next frame.
   */
  method TwoPassFrame() returns (bindFirst: Result<TextureBuffer, string>, idle: Result<(), string>, kept: nat)
    ensures bindFirst == Ok(TextureBuffer(0, 800, 600, Linear, false))
    ensures idle == Ok(())
    ensures kept == 2
  {
    var s := new TextureBufferStack.Render();
    ghost var s0 := s.State();
    s.Push();
    ghost var s1 := PushOf(s0);
    assert s1.stack == [TextureBuffer(0, 800, 600, Linear, false)] && s1.cursor == 1;
    bindFirst := s.GetCurrent();
    s.Push();
    ghost var s2 := PushOf(s1);
    assert s2.cursor == 2 && |s2.stack| == 2;
    PushKeepsValid(s1);
    var popped := s.Pop();
    assert s.State() == s2.(cursor := 1);
    OperationsKeepValid(s2, false, 0, 0, 0);
    popped := s.Pop();
    assert s.State() == s2.(cursor := 0);
    idle := s.AssertNoStack();
    kept := |s.stack|;
  }
}
