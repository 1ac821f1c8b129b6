/**
 * `IncDec` pairs and their queries, the blanket enum `OptionCursor`, the
 * older `NextEnumVariant` cursor that reports a `Result`, and the big-endian
 * byte split of a `u32`.
 */
module GeneralTypes {
  import opened Wrappers
  import opened BooleanButtons

  /** A pair of increase/decrease inputs. */
  datatype IncDec<T> = IncDec(increase: T, decrease: T)

  /** `IncDec<bool>::any_active`. */
  function AnyActive(i: IncDec<bool>): (r: bool)
    ensures r <==> i.increase || i.decrease
  {
    i.increase || i.decrease
  }

  /** `IncDec<BooleanButton>::to_just_pressed`: each flag is its button's just-pressed edge. */
  function ToJustPressed(i: IncDec<BooleanButton>): (r: IncDec<bool>)
    reads i.increase, i.decrease
    ensures r.increase == i.increase.justPressed && r.decrease == i.decrease.justPressed
  {
    IncDec(i.increase.justPressed, i.decrease.justPressed)
  }

  /** `any_just_pressed`: some button of the pair has just been pressed. */
  function AnyJustPressed(i: IncDec<BooleanButton>): bool
    reads i.increase, i.decrease
  {
    i.increase.justPressed || i.decrease.justPressed
  }

  /** `any_just_released`: some button of the pair has just been released. */
  function AnyJustReleased(i: IncDec<BooleanButton>): bool
    reads i.increase, i.decrease
  {
    i.increase.justReleased || i.decrease.justReleased
  }

  /** `any_just_pressed` is the `any_active` of `to_just_pressed`. */
  lemma AnyJustPressedIsAnyActive(i: IncDec<BooleanButton>)
    ensures AnyJustPressed(i) == AnyActive(ToJustPressed(i))
  {
  }

  /**
   * After a pair has been tracked from the flags `before`, `any_just_released`
   * holds exactly when a button that was active is no longer pushed, and
   * `any_just_pressed` exactly when a button that was inactive is pushed now.
   */
  lemma AnyEdgeAfterTracking(i: IncDec<BooleanButton>, before: IncDec<Edges>)
    requires i.increase.Flags() == Tracked(before.increase, i.increase.input)
    requires i.decrease.Flags() == Tracked(before.decrease, i.decrease.input)
    ensures AnyJustReleased(i) <==>
      (before.increase.activated && !i.increase.input) || (before.decrease.activated && !i.decrease.input)
    ensures AnyJustPressed(i) <==>
      (!before.increase.activated && i.increase.input) || (!before.decrease.activated && i.decrease.input)
  {
  }

  /** Tracking both buttons of a pair. */
  method TrackBoth(i: IncDec<BooleanButton>)
    requires i.increase != i.decrease
    modifies i.increase, i.decrease
    ensures i.increase.Flags() == Tracked(old(i.increase.Flags()), i.increase.input)
    ensures i.decrease.Flags() == Tracked(old(i.decrease.Flags()), i.decrease.input)
    ensures i.increase.input == old(i.increase.input) && i.decrease.input == old(i.decrease.input)
  {
    i.increase.TrackInput();
    i.decrease.TrackInput();
  }

  /** `DefaultReset::reset` of a button pair: both buttons become default buttons. */
  method ResetButtons(i: IncDec<BooleanButton>)
    requires i.increase != i.decrease
    modifies i.increase, i.decrease
    ensures !i.increase.input && i.increase.Flags() == Released
    ensures !i.decrease.input && i.decrease.Flags() == Released
  {
    i.increase.Reset();
    i.decrease.Reset();
  }

  /** `DefaultReset::reset` of a level pair. */
  function ResetLevels(i: IncDec<bool>): (r: IncDec<bool>)
    ensures !AnyActive(r)
  {
    IncDec(false, false)
  }

  // ----- the blanket enum cursor -----

  /** An enum value: its discriminant and the number of variants of its type. */
  datatype EnumValue = EnumValue(index: nat, len: nat)
  {
    ghost predicate Valid() { index < len }
  }

  /**
   * `change_enum_variant`: the variant at `target`, or variant 0 when the
   * target is past the last variant.
   */
  function ChangeEnumVariant(v: EnumValue, target: nat): (r: EnumValue)
    requires v.Valid()
    ensures r.Valid() && r.len == v.len
    ensures r.index == (if target < v.len then target else 0)
  {
    EnumValue(if target < v.len then target else 0, v.len)
  }

  /** `next_option`: one variant forward, wrapping the last variant to 0. */
  function NextOption(v: EnumValue): EnumValue
    requires v.Valid()
  {
    ChangeEnumVariant(v, v.index + 1)
  }

  /** `previous_option`: one variant back, wrapping variant 0 to the last. */
  function PreviousOption(v: EnumValue): EnumValue
    requires v.Valid()
  {
    ChangeEnumVariant(v, if v.index == 0 then v.len - 1 else v.index - 1)
  }

  /** The blanket cursor never reports a limit. */
  function EnumMaximumReached(v: EnumValue): bool { false }
  function EnumMinimumReached(v: EnumValue): bool { false }

  lemma NextWraps(v: EnumValue)
    requires v.Valid()
    ensures NextOption(v).Valid()
    ensures NextOption(v).index == if v.index == v.len - 1 then 0 else v.index + 1
  {
  }

  lemma PreviousWraps(v: EnumValue)
    requires v.Valid()
    ensures PreviousOption(v).Valid()
    ensures PreviousOption(v).index == if v.index == 0 then v.len - 1 else v.index - 1
  {
  }

  /** Next and previous are mutual inverses on every variant. */
  lemma NextPreviousInverse(v: EnumValue)
    requires v.Valid()
    ensures PreviousOption(NextOption(v)) == v
    ensures NextOption(PreviousOption(v)) == v
  {
  }

  // ----- the older cursor of src/screen-sim/general_types.rs -----

  /** The older `change_enum_variant`: an `Err` only when variant 0 cannot be built. */
  function ChangeEnumVariantChecked(v: EnumValue, target: nat): (r: Result<EnumValue, string>)
    ensures r.Ok? <==> v.len > 0
    ensures r.Ok? ==> (r.value.Valid() && r.value.len == v.len
      && r.value.index == (if target < v.len then target else 0))
  {
    if target < v.len then Ok(EnumValue(target, v.len))
    else if 0 < v.len then Ok(EnumValue(0, v.len))
    else Err("Can't construct enum from 0.")
  }

  function NextEnumVariant(v: EnumValue): Result<EnumValue, string>
  {
    ChangeEnumVariantChecked(v, v.index + 1)
  }

  /** `previous_enum_variant`: `len() - 1` is a `usize` subtraction, so it needs a variant at all when the index is 0. */
  function PreviousEnumVariant(v: EnumValue): Result<EnumValue, string>
    requires v.index == 0 ==> v.len > 0
  {
    ChangeEnumVariantChecked(v, if v.index == 0 then v.len - 1 else v.index - 1)
  }

  /** The older cursor is always `Ok` on a real enum value, and agrees with the blanket cursor. */
  lemma CheckedCursorAgrees(v: EnumValue)
    requires v.Valid()
    ensures NextEnumVariant(v) == Ok(NextOption(v))
    ensures PreviousEnumVariant(v) == Ok(PreviousOption(v))
  {
  }

  /** The older cursor wraps in both directions and its two moves undo each other. */
  lemma CheckedCursorInverse(v: EnumValue)
    requires v.len > 0
    requires v.Valid()
    ensures NextEnumVariant(v).Ok? && NextEnumVariant(v).value.index == (if v.index + 1 == v.len then 0 else v.index + 1)
    ensures PreviousEnumVariant(NextEnumVariant(v).value) == Ok(v)
  {
  }

  // ----- byte split -----

  /** `transform_u32_to_array_of_u8`: the four bytes of `x`, most significant first. */
  function TransformU32ToBytes(x: bv32): (r: seq<bv8>)
    ensures |r| == 4
    ensures ((r[0] as bv32) << 24) | ((r[1] as bv32) << 16) | ((r[2] as bv32) << 8) | (r[3] as bv32) == x
  {
    [((x >> 24) & 0xff) as bv8, ((x >> 16) & 0xff) as bv8, ((x >> 8) & 0xff) as bv8, (x & 0xff) as bv8]
  }
}
