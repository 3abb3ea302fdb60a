# Cache manager active view, Bcb listheads and flag helpers

This project models three pieces of logic from the Windows NT cache manager private header `private/ntos/cache/cc.h`:

- **The active-view slot of a Shared Cache Map.** A stream has at most one active view (`ActiveVacb`) and the page it is on (`ActivePage`). The flag `ACTIVE_PAGE_IS_DIRTY` says whether that page has been counted dirty.
  - `GetActiveVacb` takes the view out of the slot.
  - `SetActiveVacb` offers a view back to the slot. A view that is not accepted goes to `CcFreeActiveVacb`. The first dirty install of a page adds one to the stream's `DirtyPages` and to the global `CcTotalDirtyPages`. When the stream's count has just reached one, the stream moves to the tail of the global dirty list. If the lazy writer's scan is not active, it is started with the timer delay `CcFirstDelay`.
- **`GetBcbListHead`.** It chooses the list a Bcb is linked on: the stream's single `BcbList`, or one of the listheads placed after the Vacb array for large sections whose modified writing is disabled.
- **`FlagOn`, `BooleanFlagOn`, `SetFlag` and `ClearFlag`.** These are the bit helpers the other two use.

The modules are:
- `CcFlags` (`cc_flags.dfy`): the flag helpers over 32-bit words, and the two flag bits used here.
- `Ulong` (`ulong.dfy`): the 32-bit unsigned counters, with `+= 1` wrapping at 2^32.
- `StreamLists` (`stream_lists.dfy`): the clean and dirty lists of Shared Cache Maps as sequences of stream identities. It has unlinking and a stream's move to the tail.
- `BcbListHeads` (`bcb_list_head.dfy`): `GetBcbListHead` and the chunk arithmetic behind it.
- `ActiveVacb` (`active_vacb.dfy`): the active-view logic in two forms.
  - The value-level transitions are the functions `GetActive` and `SetActive`. Their properties are proved as lemmas.
  - The in-place form is two classes. `SharedCacheMap` holds the per-stream fields. `CacheManager` holds the process-wide fields and the logs of timer arming and of views handed to `CcFreeActiveVacb`.
  - The methods of both classes are proved to make exactly the transitions the functions give.

What each path of `SetActiveVacb` does, as modelled (the uniprocessor macro, `cc.h:1253-1302`):

| slot | flag vs `D` | `D` | effect |
|---|---|---|---|
| occupied | any | any | view freed, nothing else changes |
| empty | equal | any | view installed, no accounting |
| empty | different | 0 | view freed, nothing else changes |
| empty | different | non-zero | view installed, flag set, both counts +1; on the first dirty page the stream moves to the dirty tail and the scan starts if idle |

The `break` taken after arming the timer (`cc.h:1287`) only skips the final `if ((V) != NULL)` test. That path has already set `V` to NULL, so the model runs the test anyway. `SharedCacheMap.InstallDirtyView` is the dirty-install path (`cc.h:1258-1290`) as a method of its own.

`D` is compared with `Flags & ACTIVE_PAGE_IS_DIRTY` as a full 32-bit word, exactly as the macro does. The properties are stated for the two values the callers are meant to pass, 0 and `ACTIVE_PAGE_IS_DIRTY`. `ActiveVacb.BooleanDirtyArgumentCountsTwice` shows what a plain `TRUE` (1) would do: the comparison never succeeds, so the page is counted dirty on every call.

## Model

| member | source | states |
|---|---|---|
| CcFlags.FlagOnMeaning | private/ntos/cache/cc.h:246-252 | `FlagOn` keeps exactly the bits of the word inside the mask and is zero outside it; `BooleanFlagOn` is true exactly when `FlagOn` is non-zero |
| CcFlags.SetFlagMeaning | private/ntos/cache/cc.h:254-256 | after `SetFlag` every bit of the mask tests set and every other bit is unchanged |
| CcFlags.ClearFlagMeaning | private/ntos/cache/cc.h:258-260 | after `ClearFlag` every bit of the mask tests clear and every other bit is unchanged |
| CcFlags.SetClearIdempotent | private/ntos/cache/cc.h:254-260 | setting twice is setting once; clearing twice is clearing once |
| CcFlags.SetClearRoundTrip | private/ntos/cache/cc.h:254-260 | clearing undoes setting a flag that was clear, and setting undoes clearing a flag that was set |
| CcFlags.FlagBitsIndependent | private/ntos/cache/cc.h:701-713 | `ACTIVE_PAGE_IS_DIRTY` and `MODIFIED_WRITE_DISABLED` are distinct single bits: setting or clearing the first never changes the test of the second, and the dirty test yields 0 or the bit itself |
| Ulong.IncrementMeaning | private/ntos/cache/cc.h:1263-1264 | a ULONG `+= 1` is addition modulo 2^32; the result is 1 exactly when the old value was 0, and always differs from the old value |
| Ulong.IncrementKeepsDifference | private/ntos/cache/cc.h:1263-1264 | incrementing the two counters together keeps their difference modulo 2^32 |
| StreamLists.Unlink | private/ntos/cache/cc.h:1270-1274 | unlinking an entry removes exactly one occurrence of the stream from the list, and leaves a list without that stream unchanged |
| StreamLists.UnlinkRemovesOnePosition | private/ntos/cache/cc.h:1270-1274 | unlinking removes the entry's one position: its predecessors and successors stay, in order, and become neighbours |
| StreamLists.MoveToTailKeepsOthersInOrder | private/ntos/cache/cc.h:1270-1280 | after moving a stream to the tail, the other streams on the list keep their relative order |
| StreamLists.MoveToTailKeepsLinkedStreams | private/ntos/cache/cc.h:1270-1280 | moving a stream linked once on the clean or dirty list to the dirty tail leaves every stream linked as many times as before |
| StreamLists.MoveToTailKeepsDistinct | private/ntos/cache/cc.h:1270-1280 | lists whose entries were distinct stay distinct after the move |
| ActiveVacb.GetActive | private/ntos/cache/cc.h:1142-1151 | the result is the previous slot, and the slot is left empty with page, flags and count unchanged; `P` and `D` get the page and the dirty bit only when there was a view and otherwise stay as the caller had them; a returned `D` is 0 or the dirty bit |
| ActiveVacb.GetActivePreservesCoherent | private/ntos/cache/cc.h:1142-1151 | taking the view keeps the stream coherent with the lists and the scan flag, and only coherent states stay coherent |
| ActiveVacb.SetActiveRefused | private/ntos/cache/cc.h:1256-1300 | on an occupied slot, or a clean view offered while the page is marked dirty, the view goes to `CcFreeActiveVacb` and the slot, page, flags, counters, lists, scan flag and timer are unchanged |
| ActiveVacb.SetActiveInstallsWithoutAccounting | private/ntos/cache/cc.h:1291-1295 | when the flag already equals `D`, the view and page are installed and nothing else changes |
| ActiveVacb.SetActiveCountsDirty | private/ntos/cache/cc.h:1257-1264 | a dirty view on an empty slot with the flag clear is installed; the flag becomes set; both counters go up by exactly one; nothing is freed |
| ActiveVacb.SetActiveMovesToDirtyTail | private/ntos/cache/cc.h:1265-1280 | the lists change only when the stream's count goes from 0 to 1, and then the stream is unlinked from where it was and appended at the tail of the dirty list |
| ActiveVacb.SetActiveArmsScan | private/ntos/cache/cc.h:1281-1288 | the scan becomes active only on that first-dirty transition, and the timer is armed with `CcFirstDelay` exactly when the scan was not already active |
| ActiveVacb.SetActiveInstalledOrFreed | private/ntos/cache/cc.h:1253-1302 | on every path the offered view ends up in exactly one place: installed (caller's `V` becomes NULL, nothing freed) or freed (caller's `V` unchanged, stream state unchanged) |
| ActiveVacb.SetActiveKeepsAccounting | private/ntos/cache/cc.h:1263-1264 | every call keeps the difference of the global and the stream's dirty counts modulo 2^32 |
| ActiveVacb.SetActivePreservesCoherent | private/ntos/cache/cc.h:1164-1170 | `SetActiveVacb` keeps the rule that each stream is on exactly one list once, and that a stream with dirty pages is on the dirty list while the scan is active; it links the same streams as before and keeps everyone else's order on both lists |
| ActiveVacb.GetThenSetRestores | private/ntos/cache/cc.h:1142-1151 | taking the active view and putting it straight back with the `P` and `D` that `GetActiveVacb` returned restores both states exactly and frees nothing |
| ActiveVacb.SetThenGetReturnsView | private/ntos/cache/cc.h:1142-1151 | a view that `SetActiveVacb` installed is what the next `GetActiveVacb` returns, with its page and the dirtiness it was set with |
| ActiveVacb.DirtyCountedOnce | private/ntos/cache/cc.h:1164-1167 | setting a dirty view, taking it and setting it back counts the page once: both counters have gone up by exactly one |
| ActiveVacb.BooleanDirtyArgumentCountsTwice | private/ntos/cache/cc.h:1257-1264 | passing 1 instead of the flag bit as `D` makes the same two calls count the page twice |
| ActiveVacb.SharedCacheMap.GetActiveVacb | private/ntos/cache/cc.h:1142-1151 | the in-place method makes exactly the `GetActive` transition and returns its `V`, `P` and `D` |
| ActiveVacb.SharedCacheMap.SetActiveVacb | private/ntos/cache/cc.h:1253-1302 | the in-place method makes exactly the `SetActive` transition on the stream and the global state, returns the caller's new `V`, and keeps the coherence rule |
| ActiveVacb.SharedCacheMap.InstallDirtyView | private/ntos/cache/cc.h:1258-1290 | installs the view and page, sets the dirty flag, increments both counters, and on the stream's first dirty page performs the move to the dirty tail and the scan start |
| ActiveVacb.CacheManager.MoveToDirtyTail | private/ntos/cache/cc.h:1265-1288 | unlinks the stream, appends it at the dirty tail, and sets the scan active and arms the timer with `CcFirstDelay` exactly when it was inactive; reports whether it armed the timer |
| ActiveVacb.CacheManager.FreeActiveVacb | private/ntos/cache/cc.h:1298-1300 | records one call of `CcFreeActiveVacb` with the stream, view, page and `D`, and changes nothing else |
| BcbListHeads.GetBcbListHead | private/ntos/cache/cc.h:168-173 | a listhead of the array is chosen exactly when the section is larger than `BEGIN_BCB_LIST_ARRAY` and `MODIFIED_WRITE_DISABLED` is set |
| BcbListHeads.ShiftRightIsChunk | private/ntos/cache/cc.h:171 | shifting right by `n` gives the index of the 2^n-sized chunk that holds the value |
| BcbListHeads.ShiftRightIsDivision | private/ntos/cache/cc.h:171 | the shift equals division by 2^n, rounding down |
| BcbListHeads.ListShiftMatchesListSize | private/ntos/cache/cc.h:157-166 | `BCB_LIST_SHIFT` is the shift for `SIZE_PER_BCB_LIST`; with 256 KB views, one listhead covers 512 KB |
| BcbListHeads.ListHeadCoversOffset | private/ntos/cache/cc.h:168-173 | in the array case the chosen listhead is the one whose `SIZE_PER_BCB_LIST` chunk holds `SectionSize + Off` |
| BcbListHeads.SingleListForSmallSections | private/ntos/cache/cc.h:168-173 | otherwise every offset gets the stream's single `BcbList` |
| BcbListHeads.ListHeadMonotone | private/ntos/cache/cc.h:168-173 | greater offsets never map to lower listheads |
| BcbListHeads.SameListHeadIffSameChunk | private/ntos/cache/cc.h:157-173 | two offsets share a listhead if and only if `SectionSize + Off` is in the same `SIZE_PER_BCB_LIST` chunk for both |
| BcbListHeads.ListHeadIndexInArray | private/ntos/cache/cc.h:157-173 | for a section that is a whole number of chunks, an offset inside it maps to the listhead `Off / SIZE_PER_BCB_LIST` places after index `SectionSize / SIZE_PER_BCB_LIST`, and stays inside an array as long as the section's chunk count |

## Left out

- Spin locks, IRQL and the multiprocessor/uniprocessor split. Only the uniprocessor `SetActiveVacb` is modelled; the multiprocessor macro (`cc.h:1184-1244`) makes the same transitions under different locks. `GetActiveVacbAtDpcLevel` differs from `GetActiveVacb` only in its locking. Concurrency is not modelled.
- `KeSetTimer` and the scan DPC: arming the timer is recorded in the ghost log `timersArmed`, with the delay used. The timer and DPC themselves are not modelled.
- `CcFreeActiveVacb`: only declared in `cc.h`. Its calls are recorded in the ghost log `freed`. The count it gives back and everything else it does are not modelled. The same holds for every other routine the header only declares.
- The doubly-linked list pointers: a list is the sequence of streams on it. Unlinking removes the stream's first occurrence from both the clean and the dirty list; a coherent state has it on exactly one. Corrupting the lists by unlinking an entry that is on no list is not modelled.
- Creating and deleting Shared Cache Maps and initialising the globals are not modelled. The classes have no constructors.
- `SetFlag` and `ClearFlag` update their argument in place. They are modelled as functions that return the new word, which the caller assigns back.
- `ActiveVacb.SetActivePreservesCoherent`: the coherence rule covers the one stream the call is about. The other streams' counts are not modelled, so their rule is preserved only in the sense that their list positions and order are untouched.
- `BcbListHeads.GetBcbListHead`: `SectionSize + Off` is a signed 64-bit sum in the original. The model uses unbounded integers, so overflow of that sum is not modelled. `VACB_OFFSET_SHIFT` is defined outside `cc.h` and is a parameter.
- `BcbListHeads.GetBcbListHead`: the result is an index counted in listheads from the start of the Vacb array. The memory layout that places the listheads there is not modelled.
- The read-ahead sequential detector: only the `NOISE_BITS` constant is in `cc.h` (`cc.h:175-183`); the comparison logic is elsewhere.
- Pool tags, bugcheck codes, debug tracing, `try_return` and the debug global Bcb list: diagnostics only.
- The layout of the structures, including the `VACB` union and alignment constraints: nothing modelled depends on them.
- Memory-manager tunables and the global delay values: `CcFirstDelay` is a parameter (`CacheManager.firstDelay`).
