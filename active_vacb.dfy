/** The active-view slot of a Shared Cache Map and the dirty-page
    accounting tied to it (GetActiveVacb and SetActiveVacb in cc.h).

    Each Shared Cache Map caches at most one view (Vacb) for small
    sequential writes, together with the page inside it (ActivePage). The
    flag ACTIVE_PAGE_IS_DIRTY says the page in that view has been counted
    dirty. The first time a view is installed dirty, the stream's
    DirtyPages and the global CcTotalDirtyPages go up by one; when the
    stream's count thereby becomes 1 the stream moves to the tail of the
    global dirty list, and the lazy writer's scan is started if it was not
    running. The count is only given back by CcFreeActiveVacb, which is
    outside this model; its calls are recorded, as is the arming of the
    scan timer.

    The functions GetActive and SetActive give the transitions on values;
    the classes SharedCacheMap (per-stream fields) and CacheManager (the
    process-wide fields) carry the same state in place, and their methods
    are proved to make exactly those transitions. */
module ActiveVacb {
  import opened CcFlags
  import opened StreamLists
  import opened Ulong

  /** A pointer to a view: NULL or the identity of a Vacb. The slot logic
      never looks inside the view. */
  datatype VacbPtr = Null | Vacb(id: nat)

  /** One call CcFreeActiveVacb(SharedCacheMap, Vacb, Page, Dirty). */
  datatype FreeCall = FreeCall(stream: StreamId, vacb: VacbPtr, page: ULong, dirty: bv32)

  /** The fields of one Shared Cache Map that the slot logic touches. */
  datatype StreamState = StreamState(activeVacb: VacbPtr, activePage: ULong, flags: bv32, dirtyPages: ULong)

  /** The process-wide state it touches: CcTotalDirtyPages, the clean and
      dirty Shared Cache Map lists, LazyWriter.ScanActive, and the logs of
      timer arming (with the delay used) and of views given to
      CcFreeActiveVacb. */
  datatype GlobalState = GlobalState(
    totalDirtyPages: ULong,
    cleanList: seq<StreamId>,
    dirtyList: seq<StreamId>,
    scanActive: bool,
    timersArmed: seq<int>,
    freed: seq<FreeCall>)

  /** The new stream state and the caller's V, P and D after GetActiveVacb. */
  datatype GetOutcome = GetOutcome(stream: StreamState, v: VacbPtr, p: ULong, d: bv32)

  /** The new states and the caller's V after SetActiveVacb. */
  datatype SetOutcome = SetOutcome(stream: StreamState, global: GlobalState, v: VacbPtr)

  /** The values the callers pass as D: clean (0) or the flag bit itself. */
  predicate IsDirtyArgument(d: bv32)
  {
    d == 0 || d == ACTIVE_PAGE_IS_DIRTY
  }

  /** The record of handing `v` to CcFreeActiveVacb; nothing for NULL. */
  function FreeCalls(id: StreamId, v: VacbPtr, p: ULong, d: bv32): seq<FreeCall>
  {
    if v == Null then [] else [FreeCall(id, v, p, d)]
  }

  /** SetActiveVacb refuses the view: the slot is occupied, or a clean view
      is offered while the active page is marked dirty. */
  predicate Refuses(s: StreamState, d: bv32)
  {
    s.activeVacb != Null || (FlagOn(s.flags, ACTIVE_PAGE_IS_DIRTY) != d && d == 0)
  }

  /** SetActiveVacb installs the view and counts the page dirty. */
  predicate CountsDirty(s: StreamState, d: bv32)
  {
    s.activeVacb == Null && FlagOn(s.flags, ACTIVE_PAGE_IS_DIRTY) != d && d != 0
  }

  /** ... and that page is the stream's first dirty page. */
  predicate FirstDirty(s: StreamState, d: bv32)
  {
    CountsDirty(s, d) && s.dirtyPages == 0
  }

  /** GetActiveVacb: take whatever view is in the slot and empty it. The
      caller's P and D (`p0`, `d0`) are overwritten only when there was a
      view. */
  function GetActive(s: StreamState, p0: ULong, d0: bv32): (r: GetOutcome)
    ensures r.v == s.activeVacb
    ensures r.stream == s.(activeVacb := Null)
    ensures r.v != Null ==> r.p == s.activePage && r.d == FlagOn(s.flags, ACTIVE_PAGE_IS_DIRTY)
    ensures r.v != Null ==> IsDirtyArgument(r.d)
    ensures r.v == Null ==> r.p == p0 && r.d == d0
  {
    if s.activeVacb == Null then GetOutcome(s, Null, p0, d0)
    else GetOutcome(s.(activeVacb := Null), s.activeVacb, s.activePage, FlagOn(s.flags, ACTIVE_PAGE_IS_DIRTY))
  }

  /** The first-dirty transition of the global state: unlink the stream's
      entry from the list it is on, append it to the dirty list, and start
      the scan with CcFirstDelay if it is not active. */
  function LinkDirty(g: GlobalState, id: StreamId, firstDelay: int): GlobalState
  {
    var moved := g.(cleanList := Unlink(g.cleanList, id), dirtyList := Unlink(g.dirtyList, id) + [id]);
    if g.scanActive then moved
    else moved.(scanActive := true, timersArmed := g.timersArmed + [firstDelay])
  }

  /** SetActiveVacb: offer view `v` for page `p` with dirtiness `d` to
      stream `id`. In the outcome, `v` is NULL when the view was installed
      and is still the offered view when it was given to CcFreeActiveVacb.
      What each path promises is stated by the lemmas below. */
  function SetActive(id: StreamId, s: StreamState, g: GlobalState, v: VacbPtr, p: ULong, d: bv32, firstDelay: int): SetOutcome
  {
    if s.activeVacb != Null then
      SetOutcome(s, g.(freed := g.freed + FreeCalls(id, v, p, d)), v)
    else if FlagOn(s.flags, ACTIVE_PAGE_IS_DIRTY) == d then
      SetOutcome(s.(activeVacb := v, activePage := p), g, Null)
    else if d == 0 then
      SetOutcome(s, g.(freed := g.freed + FreeCalls(id, v, p, d)), v)
    else
      var s1 := StreamState(v, p, SetFlag(s.flags, ACTIVE_PAGE_IS_DIRTY), Increment(s.dirtyPages));
      var g1 := g.(totalDirtyPages := Increment(g.totalDirtyPages));
      SetOutcome(s1, if s1.dirtyPages == 1 then LinkDirty(g1, id, firstDelay) else g1, Null)
  }

  /** A refused view (occupied slot, or clean offered while the page is
      marked dirty) goes to CcFreeActiveVacb, and nothing else changes:
      not the slot, the page, the flags, the counters or the lists. */
  lemma SetActiveRefused(id: StreamId, s: StreamState, g: GlobalState, v: VacbPtr, p: ULong, d: bv32, firstDelay: int)
    requires s.activeVacb != Null || (d == 0 && FlagOn(s.flags, ACTIVE_PAGE_IS_DIRTY) != 0)
    ensures SetActive(id, s, g, v, p, d, firstDelay) == SetOutcome(s, g.(freed := g.freed + FreeCalls(id, v, p, d)), v)
  {
  }

  /** When the flag already says what D says, the view is installed and no
      flag, counter, list or scan state changes. */
  lemma SetActiveInstallsWithoutAccounting(id: StreamId, s: StreamState, g: GlobalState, v: VacbPtr, p: ULong, d: bv32, firstDelay: int)
    requires s.activeVacb == Null && FlagOn(s.flags, ACTIVE_PAGE_IS_DIRTY) == d
    ensures SetActive(id, s, g, v, p, d, firstDelay) == SetOutcome(s.(activeVacb := v, activePage := p), g, Null)
  {
  }

  /** A dirty view on an empty slot whose flag is clear is installed, the
      flag is set, both counters go up by exactly one, and nothing is
      freed. */
  lemma SetActiveCountsDirty(id: StreamId, s: StreamState, g: GlobalState, v: VacbPtr, p: ULong, firstDelay: int)
    requires s.activeVacb == Null && FlagOn(s.flags, ACTIVE_PAGE_IS_DIRTY) == 0
    ensures var r := SetActive(id, s, g, v, p, ACTIVE_PAGE_IS_DIRTY, firstDelay);
            && r.v == Null
            && r.stream == StreamState(v, p, SetFlag(s.flags, ACTIVE_PAGE_IS_DIRTY), Increment(s.dirtyPages))
            && FlagOn(r.stream.flags, ACTIVE_PAGE_IS_DIRTY) == ACTIVE_PAGE_IS_DIRTY
            && r.global.totalDirtyPages == Increment(g.totalDirtyPages)
            && r.global.freed == g.freed
  {
    SetFlagMeaning(s.flags, ACTIVE_PAGE_IS_DIRTY);
  }

  /** The lists change only on the first-dirty transition (the stream's
      count going from 0 to 1), and then the stream's entry is unlinked
      from where it was and appended at the tail of the dirty list. */
  lemma SetActiveMovesToDirtyTail(id: StreamId, s: StreamState, g: GlobalState, v: VacbPtr, p: ULong, d: bv32, firstDelay: int)
    ensures var r := SetActive(id, s, g, v, p, d, firstDelay);
            if FirstDirty(s, d) then
              && r.global.cleanList == Unlink(g.cleanList, id)
              && r.global.dirtyList == Unlink(g.dirtyList, id) + [id]
            else
              r.global.cleanList == g.cleanList && r.global.dirtyList == g.dirtyList
  {
    var r := SetActive(id, s, g, v, p, d, firstDelay);
    if FirstDirty(s, d) {
      assert r.global == LinkDirty(g.(totalDirtyPages := Increment(g.totalDirtyPages)), id, firstDelay);
    } else if CountsDirty(s, d) {
      assert r.global == g.(totalDirtyPages := Increment(g.totalDirtyPages));
    }
  }

  /** The scan is made active only on the first-dirty transition, and the
      timer is armed with CcFirstDelay only if the scan was not active
      before. */
  lemma SetActiveArmsScan(id: StreamId, s: StreamState, g: GlobalState, v: VacbPtr, p: ULong, d: bv32, firstDelay: int)
    ensures var r := SetActive(id, s, g, v, p, d, firstDelay);
            && r.global.scanActive == (g.scanActive || FirstDirty(s, d))
            && r.global.timersArmed == g.timersArmed + (if FirstDirty(s, d) && !g.scanActive then [firstDelay] else [])
  {
  }

  /** On every path the offered view ends up in exactly one place: in the
      slot (and the caller's V becomes NULL), or with CcFreeActiveVacb
      (and the caller's V is unchanged). */
  lemma SetActiveInstalledOrFreed(id: StreamId, s: StreamState, g: GlobalState, v: VacbPtr, p: ULong, d: bv32, firstDelay: int)
    requires v != Null
    ensures var r := SetActive(id, s, g, v, p, d, firstDelay);
            && (r.v == Null || r.v == v)
            && (r.v == Null ==> r.stream.activeVacb == v && r.stream.activePage == p && r.global.freed == g.freed)
            && (r.v == v ==> r.stream == s && r.global.freed == g.freed + [FreeCall(id, v, p, d)])
  {
  }

  /** The global count moves in step with the stream's count, so their
      difference (modulo 2^32) is kept by every call. */
  lemma SetActiveKeepsAccounting(id: StreamId, s: StreamState, g: GlobalState, v: VacbPtr, p: ULong, d: bv32, firstDelay: int)
    ensures var r := SetActive(id, s, g, v, p, d, firstDelay);
            (r.global.totalDirtyPages - r.stream.dirtyPages) % ULONG_MODULUS == (g.totalDirtyPages - s.dirtyPages) % ULONG_MODULUS
  {
    IncrementKeepsDifference(g.totalDirtyPages, s.dirtyPages);
  }

  /** The reachability rule for dirty streams: every stream sits on exactly
      one of the two lists, once, and a stream counted dirty is on the
      dirty list while the lazy writer's scan is active. */
  predicate Coherent(id: StreamId, s: StreamState, g: GlobalState)
  {
    && Distinct(g.cleanList + g.dirtyList)
    && id in g.cleanList + g.dirtyList
    && (s.dirtyPages != 0 ==> id in g.dirtyList && g.scanActive)
  }

  /** SetActiveVacb keeps the reachability rule, links the same streams as
      before, and keeps everyone else's order on both lists. */
  lemma SetActivePreservesCoherent(id: StreamId, s: StreamState, g: GlobalState, v: VacbPtr, p: ULong, d: bv32, firstDelay: int)
    requires Coherent(id, s, g)
    ensures var r := SetActive(id, s, g, v, p, d, firstDelay);
            && Coherent(id, r.stream, r.global)
            && multiset(r.global.cleanList + r.global.dirtyList) == multiset(g.cleanList + g.dirtyList)
            && Without(r.global.cleanList, id) == Without(g.cleanList, id)
            && Without(r.global.dirtyList, id) == Without(g.dirtyList, id)
  {
    SetActiveMovesToDirtyTail(id, s, g, v, p, d, firstDelay);
    SetActiveArmsScan(id, s, g, v, p, d, firstDelay);
    var r := SetActive(id, s, g, v, p, d, firstDelay);
    if FirstDirty(s, d) {
      assert multiset(g.cleanList + g.dirtyList)[id] == 1;
      MoveToTailKeepsLinkedStreams(g.cleanList, g.dirtyList, id);
      MoveToTailKeepsDistinct(g.cleanList, g.dirtyList, id);
      assert r.global.cleanList + r.global.dirtyList == Unlink(g.cleanList, id) + (Unlink(g.dirtyList, id) + [id]);
      WithoutUnlink(g.cleanList, id);
      MoveToTailKeepsOthersInOrder(g.dirtyList, id);
    } else if CountsDirty(s, d) {
      assert s.dirtyPages != 0;
    }
  }

  /** GetActiveVacb touches no count and no list, so it keeps the rule. */
  lemma GetActivePreservesCoherent(id: StreamId, s: StreamState, g: GlobalState, p0: ULong, d0: bv32)
    ensures Coherent(id, GetActive(s, p0, d0).stream, g) <==> Coherent(id, s, g)
  {
  }

  /** Taking the active view and putting it straight back restores every
      field of both states, and frees nothing. */
  lemma GetThenSetRestores(id: StreamId, s: StreamState, g: GlobalState, p0: ULong, d0: bv32, firstDelay: int)
    requires s.activeVacb != Null
    ensures var o := GetActive(s, p0, d0);
            SetActive(id, o.stream, g, o.v, o.p, o.d, firstDelay) == SetOutcome(s, g, Null)
  {
  }

  /** A view that SetActiveVacb installs is what the next GetActiveVacb
      returns, with its page and the dirtiness it was set with. */
  lemma SetThenGetReturnsView(id: StreamId, s: StreamState, g: GlobalState, v: VacbPtr, p: ULong, d: bv32, firstDelay: int, p0: ULong, d0: bv32)
    requires v != Null && IsDirtyArgument(d)
    requires SetActive(id, s, g, v, p, d, firstDelay).v == Null
    ensures var r := SetActive(id, s, g, v, p, d, firstDelay);
            GetActive(r.stream, p0, d0) == GetOutcome(r.stream.(activeVacb := Null), v, p, d)
  {
  }

  /** The dirty count is taken once per active page: setting the view
      dirty, taking it, and setting it dirty again counts one page. */
  lemma DirtyCountedOnce(id: StreamId, s: StreamState, g: GlobalState, v1: VacbPtr, p1: ULong, v2: VacbPtr, p2: ULong, firstDelay: int, p0: ULong, d0: bv32)
    requires s.activeVacb == Null && FlagOn(s.flags, ACTIVE_PAGE_IS_DIRTY) == 0 && v1 != Null
    ensures var r1 := SetActive(id, s, g, v1, p1, ACTIVE_PAGE_IS_DIRTY, firstDelay);
            var o := GetActive(r1.stream, p0, d0);
            var r2 := SetActive(id, o.stream, r1.global, v2, p2, o.d, firstDelay);
            && o.d == ACTIVE_PAGE_IS_DIRTY
            && r2.v == Null
            && r2.stream.dirtyPages == Increment(s.dirtyPages)
            && r2.global.totalDirtyPages == Increment(g.totalDirtyPages)
  {
  }

  /** Why D must be the flag bit and not a plain TRUE: with D == 1 the test
      `(Flags & ACTIVE_PAGE_IS_DIRTY) != D` never fails, so the same kind
      of call counts the page again every time. */
  lemma BooleanDirtyArgumentCountsTwice(id: StreamId, s: StreamState, g: GlobalState, v1: VacbPtr, p1: ULong, v2: VacbPtr, p2: ULong, firstDelay: int, p0: ULong, d0: bv32)
    requires s.activeVacb == Null && FlagOn(s.flags, ACTIVE_PAGE_IS_DIRTY) == 0 && v1 != Null
    ensures var r1 := SetActive(id, s, g, v1, p1, 1, firstDelay);
            var o := GetActive(r1.stream, p0, d0);
            var r2 := SetActive(id, o.stream, r1.global, v2, p2, 1, firstDelay);
            && r2.stream.dirtyPages == Increment(Increment(s.dirtyPages))
            && r2.global.totalDirtyPages == Increment(Increment(g.totalDirtyPages))
  {
  }

  /** One Shared Cache Map: the fields the active-view logic updates. */
  class SharedCacheMap {
    /** The stream's identity on the global lists. */
    const id: StreamId
    var activeVacb: VacbPtr
    var activePage: ULong
    var flags: bv32
    var dirtyPages: ULong

    function State(): StreamState
      reads this
    {
      StreamState(activeVacb, activePage, flags, dirtyPages)
    }

    /** GetActiveVacb(SCM, IRQ, V, P, D); `p0` and `d0` are what the
        caller's P and D held before. */
    method GetActiveVacb(p0: ULong, d0: bv32) returns (v: VacbPtr, p: ULong, d: bv32)
      modifies this
      ensures GetOutcome(State(), v, p, d) == GetActive(old(State()), p0, d0)
    {
      p, d := p0, d0;
      v := activeVacb;
      if v != Null {
        p := activePage;
        activeVacb := Null;
        d := FlagOn(flags, ACTIVE_PAGE_IS_DIRTY);
      }
    }

    /** SetActiveVacb(SCM, IRQ, V, P, D). The returned `v` is the caller's
        V afterwards. The dirty-install path is InstallDirtyView; the
        `break` out of the original's `do { ... } while (FALSE)` after
        starting the scan only skips the final test of V, which that path
        has already made NULL. */
    method SetActiveVacb(cc: CacheManager, v0: VacbPtr, p: ULong, d: bv32) returns (v: VacbPtr)
      modifies this, cc
      ensures SetOutcome(State(), cc.State(), v) == SetActive(id, old(State()), old(cc.State()), v0, p, d, cc.firstDelay)
      ensures Coherent(id, old(State()), old(cc.State())) ==> Coherent(id, State(), cc.State())
    {
      ghost var s0, g0 := State(), cc.State();
      ghost var r := SetActive(id, s0, g0, v0, p, d, cc.firstDelay);
      v := v0;
      if activeVacb == Null {
        if FlagOn(flags, ACTIVE_PAGE_IS_DIRTY) != d {
          if d != 0 {
            InstallDirtyView(cc, v, p);
            v := Null;
          } else {
            assert r == SetOutcome(s0, g0.(freed := g0.freed + FreeCalls(id, v0, p, d)), v0);
          }
        } else {
          assert r == SetOutcome(s0.(activeVacb := v0, activePage := p), g0, Null);
          activeVacb := v;
          activePage := p;
          v := Null;
        }
      } else {
        assert r == SetOutcome(s0, g0.(freed := g0.freed + FreeCalls(id, v0, p, d)), v0);
      }
      if v != Null {
        cc.FreeActiveVacb(id, v, p, d);
      }
      assert State() == r.stream && cc.State() == r.global && v == r.v;
      if Coherent(id, s0, g0) {
        SetActivePreservesCoherent(id, s0, g0, v0, p, d, cc.firstDelay);
      }
    }

    /** The path of SetActiveVacb that installs a dirty view while the
        active page is not marked dirty: install it, mark the page dirty,
        count it on the stream and globally, and on the stream's first
        dirty page move the stream to the dirty list and start the scan. */
    method InstallDirtyView(cc: CacheManager, v: VacbPtr, p: ULong)
      modifies this, cc
      ensures State() == StreamState(v, p, SetFlag(old(flags), ACTIVE_PAGE_IS_DIRTY), Increment(old(dirtyPages)))
      ensures var g1 := old(cc.State()).(totalDirtyPages := Increment(old(cc.totalDirtyPages)));
              cc.State() == if dirtyPages == 1 then LinkDirty(g1, id, cc.firstDelay) else g1
    {
      activeVacb := v;
      activePage := p;
      flags := SetFlag(flags, ACTIVE_PAGE_IS_DIRTY);
      cc.totalDirtyPages := Increment(cc.totalDirtyPages);
      dirtyPages := Increment(dirtyPages);
      if dirtyPages == 1 {
        var started := cc.MoveToDirtyTail(id);
      }
    }
  }

  /** The process-wide state the active-view logic touches. */
  class CacheManager {
    var totalDirtyPages: ULong
    var cleanList: seq<StreamId>
    var dirtyList: seq<StreamId>
    var scanActive: bool
    /** CcFirstDelay, the delay the scan timer is first armed with. */
    const firstDelay: int
    /** Every KeSetTimer of the scan timer, by delay. */
    ghost var timersArmed: seq<int>
    /** Every call of CcFreeActiveVacb. */
    ghost var freed: seq<FreeCall>

    ghost function State(): GlobalState
      reads this
    {
      GlobalState(totalDirtyPages, cleanList, dirtyList, scanActive, timersArmed, freed)
    }

    /** The first-dirty step of SetActiveVacb on the global state: unlink
        the stream's links, put them at the tail of the dirty list, and
        start the lazy writer's scan if it is not active. `started` says
        whether the timer was armed. */
    method MoveToDirtyTail(id: StreamId) returns (started: bool)
      modifies this
      ensures State() == LinkDirty(old(State()), id, firstDelay)
      ensures started == !old(scanActive)
    {
      cleanList := Unlink(cleanList, id);
      dirtyList := Unlink(dirtyList, id) + [id];
      started := !scanActive;
      if started {
        scanActive := true;
        timersArmed := timersArmed + [firstDelay];
      }
    }

    /** CcFreeActiveVacb(SharedCacheMap, Vacb, Page, Dirty), recorded. */
    method FreeActiveVacb(id: StreamId, v: VacbPtr, p: ULong, d: bv32)
      modifies this
      ensures State() == old(State()).(freed := old(freed) + [FreeCall(id, v, p, d)])
    {
      freed := freed + [FreeCall(id, v, p, d)];
    }
  }
}
