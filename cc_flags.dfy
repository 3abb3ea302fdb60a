/** Flag helpers of the cache manager and the Shared Cache Map flag bits
    they are used with. Flags are 32-bit words (ULONG), so they are `bv32`.
    `SetFlag` and `ClearFlag` are compound assignments to an lvalue in the
    original; here they are functions returning the new word, and callers
    assign the result back to the field. What each helper means is stated
    by the lemmas that follow the definitions. */
module CcFlags {

  /** The view held in the active slot has been dirtied. */
  const ACTIVE_PAGE_IS_DIRTY: bv32 := 0x0080

  /** Modified write was disabled on the section. */
  const MODIFIED_WRITE_DISABLED: bv32 := 0x0200

  /** The bits of `f` that lie in `sf`. */
  function FlagOn(f: bv32, sf: bv32): bv32
  {
    f & sf
  }

  /** Whether any bit of `sf` is set in `f`, as a boolean. */
  function BooleanFlagOn(f: bv32, sf: bv32): bool
  {
    (f & sf) != 0
  }

  /** `f` with every bit of `sf` set. */
  function SetFlag(f: bv32, sf: bv32): bv32
  {
    f | sf
  }

  /** `f` with every bit of `sf` cleared. */
  function ClearFlag(f: bv32, sf: bv32): bv32
  {
    f & !sf
  }

  /** `FlagOn` keeps exactly the bits of `f` inside `sf`, so it is zero
      outside `sf`, and `BooleanFlagOn` is its truth value. */
  lemma FlagOnMeaning(f: bv32, sf: bv32)
    ensures FlagOn(f, sf) & !sf == 0
    ensures FlagOn(f, sf) & sf == f & sf
    ensures BooleanFlagOn(f, sf) <==> FlagOn(f, sf) != 0
    ensures FlagOn(f, sf) == 0 || f != 0
  {
  }

  /** After `SetFlag` every bit of `sf` tests set, and every other bit is
      what it was. */
  lemma SetFlagMeaning(f: bv32, sf: bv32)
    ensures FlagOn(SetFlag(f, sf), sf) == sf
    ensures SetFlag(f, sf) & !sf == f & !sf
  {
  }

  /** After `ClearFlag` every bit of `sf` tests clear, and every other bit
      is what it was. */
  lemma ClearFlagMeaning(f: bv32, sf: bv32)
    ensures FlagOn(ClearFlag(f, sf), sf) == 0
    ensures ClearFlag(f, sf) & !sf == f & !sf
  {
  }

  /** Setting a flag twice is setting it once; likewise for clearing. */
  lemma SetClearIdempotent(f: bv32, sf: bv32)
    ensures SetFlag(SetFlag(f, sf), sf) == SetFlag(f, sf)
    ensures ClearFlag(ClearFlag(f, sf), sf) == ClearFlag(f, sf)
  {
  }

  /** Clearing undoes a set of a flag that was clear, and setting undoes a
      clear of a flag that was set. */
  lemma SetClearRoundTrip(f: bv32, sf: bv32)
    ensures FlagOn(f, sf) == 0 ==> ClearFlag(SetFlag(f, sf), sf) == f
    ensures FlagOn(f, sf) == sf ==> SetFlag(ClearFlag(f, sf), sf) == f
  {
  }

  /** The two flags used by the active-view and listhead logic are single,
      distinct bits, so setting one never changes the test of the other. */
  lemma FlagBitsIndependent(f: bv32)
    ensures FlagOn(SetFlag(f, ACTIVE_PAGE_IS_DIRTY), MODIFIED_WRITE_DISABLED) == FlagOn(f, MODIFIED_WRITE_DISABLED)
    ensures FlagOn(ClearFlag(f, ACTIVE_PAGE_IS_DIRTY), MODIFIED_WRITE_DISABLED) == FlagOn(f, MODIFIED_WRITE_DISABLED)
    ensures FlagOn(f, ACTIVE_PAGE_IS_DIRTY) == 0 || FlagOn(f, ACTIVE_PAGE_IS_DIRTY) == ACTIVE_PAGE_IS_DIRTY
  {
  }
}
