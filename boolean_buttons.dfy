/**
 * The level-to-edge detector of both Rust cores (the same `BooleanButton` in
 * display-sim-core and screen-sim-core). The private `BooleanButtonBasic` is
 * flattened into the button: its three flags are fields of `BooleanButton`.
 */
module BooleanButtons {

  /** The flags of `BooleanButtonBasic`. */
  datatype Edges = Edges(activated: bool, justPressed: bool, justReleased: bool)

  const Released := Edges(false, false, false)

  /** `BooleanButtonBasic::track` on the flags. */
  function Tracked(e: Edges, pushed: bool): (r: Edges)
    ensures r.activated == pushed
    ensures r.justPressed <==> pushed && !e.activated
    ensures r.justReleased <==> !pushed && e.activated
  {
    if !pushed && e.activated then Edges(pushed, false, true)
    else if pushed && !e.activated then Edges(pushed, true, false)
    else Edges(pushed, false, false)
  }

  /** Tracking a whole sequence of levels, one per frame. */
  function TrackedAll(e: Edges, levels: seq<bool>): Edges
    decreases |levels|
  {
    if levels == [] then e else TrackedAll(Tracked(e, levels[0]), levels[1..])
  }

  class BooleanButton {
    var input: bool
    var activated: bool
    var justPressed: bool
    var justReleased: bool

    function Flags(): Edges
      reads this
    {
      Edges(activated, justPressed, justReleased)
    }

    /** `Default`: not pushed, nothing activated, no edge. */
    constructor ()
      ensures !input && Flags() == Released
    {
      input, activated, justPressed, justReleased := false, false, false, false;
    }

    /** `BooleanButtonBasic::track`. */
    method Track(pushed: bool)
      modifies this
      ensures Flags() == Tracked(old(Flags()), pushed)
      ensures input == old(input)
    {
      justPressed := false;
      justReleased := false;
      if !pushed && activated {
        justReleased := true;
      } else if pushed && !activated {
        justPressed := true;
      }
      activated := pushed;
    }

    /** `track_input`: tracks the level last written into `input`. */
    method TrackInput()
      modifies this
      ensures Flags() == Tracked(old(Flags()), input)
      ensures input == old(input)
      ensures activated == input
    {
      Track(input);
    }

    /** Back to the default button: the `DefaultReset` of a containing `IncDec`. */
    method Reset()
      modifies this
      ensures !input && Flags() == Released
    {
      input, activated, justPressed, justReleased := false, false, false, false;
    }
  }

  /** The two edge flags are never both set after a track. */
  lemma EdgesExclusive(e: Edges, pushed: bool)
    ensures !(Tracked(e, pushed).justPressed && Tracked(e, pushed).justReleased)
  {
  }

  /** Tracking the same level twice leaves both edge flags clear on the second call. */
  lemma RepeatClearsEdges(e: Edges, pushed: bool)
    ensures var r := Tracked(Tracked(e, pushed), pushed);
      !r.justPressed && !r.justReleased && r.activated == pushed
  {
  }

  /** An unchanged level never produces an edge. */
  lemma LevelUnchangedNoEdges(e: Edges, pushed: bool)
    requires e.activated == pushed
    ensures Tracked(e, pushed) == Edges(pushed, false, false)
  {
  }

  /**
   * Over any sequence of frames, the button is activated at the last level, and
   * an edge flag is set exactly on a false-to-true (pressed) or true-to-false
   * (released) change between the last two levels.
   */
  lemma {:induction false} EdgesFollowLevels(e: Edges, levels: seq<bool>)
    requires |levels| >= 1
    decreases |levels|
    ensures var r := TrackedAll(e, levels);
      var last := levels[|levels| - 1];
      var before := if |levels| == 1 then e.activated else levels[|levels| - 2];
      r.activated == last
      && (r.justPressed <==> last && !before)
      && (r.justReleased <==> !last && before)
  {
    if |levels| > 1 {
      EdgesFollowLevels(Tracked(e, levels[0]), levels[1..]);
    }
  }
}
