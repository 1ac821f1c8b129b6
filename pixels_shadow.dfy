/** `ShadowShape`: a cursor over the 24 pixel-shadow shapes, wrapping both ways. */
module PixelsShadow {
  import Text

  const ShadowsLen: nat := 24

  /** `next_option` on the value. */
  function ShadowNext(v: nat): nat
  {
    if v + 1 >= ShadowsLen then 0 else v + 1
  }

  /** `previous_option` on the value: 0 wraps to the last shape, so the `usize` decrement never goes below 0. */
  function ShadowPrevious(v: nat): nat
  {
    if v == 0 then ShadowsLen - 1 else v - 1
  }

  function ShadowNextN(v: nat, k: nat): nat
    decreases k
  {
    if k == 0 then v else ShadowNextN(ShadowNext(v), k - 1)
  }

  class ShadowShape {
    var value: nat

    /** `Default`: the first shape. */
    constructor ()
      ensures value == 0
    {
      value := 0;
    }

    method NextOption()
      modifies this
      ensures value == ShadowNext(old(value))
    {
      value := value + 1;
      if value >= ShadowsLen {
        value := 0;
      }
    }

    method PreviousOption()
      modifies this
      ensures value == ShadowPrevious(old(value))
    {
      if value == 0 {
        value := ShadowsLen;
      }
      value := value - 1;
    }

    /** Neither limit is ever reported. */
    function HasReachedMaximumLimit(): bool { false }
    function HasReachedMinimumLimit(): bool { false }

    /** `Display`: the decimal value. */
    function ToString(): (s: string)
      reads this
      ensures Text.IsDigits(s) && Text.ParseNat(s) == value
    {
      Text.ParseNatToString(value);
      Text.NatToString(value)
    }
  }

  /** From a value in range, both moves stay in range and wrap at the ends. */
  lemma ShadowStaysInRange(v: nat)
    requires v < ShadowsLen
    ensures ShadowNext(v) < ShadowsLen && ShadowPrevious(v) < ShadowsLen
    ensures ShadowNext(23) == 0 && ShadowPrevious(0) == 23
  {
  }

  /** Next and previous undo each other on every in-range value. */
  lemma ShadowInverse(v: nat)
    requires v < ShadowsLen
    ensures ShadowPrevious(ShadowNext(v)) == v && ShadowNext(ShadowPrevious(v)) == v
  {
  }

  lemma {:induction false} ShadowNextNIsModular(v: nat, k: nat)
    requires v < ShadowsLen
    decreases k
    ensures ShadowNextN(v, k) == (v + k) % ShadowsLen
  {
    if k > 0 {
      ShadowNextNIsModular(ShadowNext(v), k - 1);
    }
  }

  /** Twenty-four nexts are the identity. */
  lemma ShadowFullTurn(v: nat)
    requires v < ShadowsLen
    ensures ShadowNextN(v, ShadowsLen) == v
  {
    ShadowNextNIsModular(v, ShadowsLen);
  }
}
