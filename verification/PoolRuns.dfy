/** Every run of the pool: reservations, claims, releases, trims, special sizes and cancelled waiters in any
    order. */
module PoolRuns {
  import opened Pool
  import opened PoolMemory
  import opened PoolAccounts
  import opened PoolSafety
  import opened PoolRelease

  // ----- The queue of parked reservations -----

  function WaiterIds(pending: seq<Waiter>): seq<nat> {
    if pending == [] then [] else [pending[0].id] + WaiterIds(pending[1..])
  }

  /** Strictly increasing and below `bound`. */
  ghost predicate Ascending(ids: seq<nat>, bound: nat) {
    && (forall i :: 0 <= i < |ids| ==> ids[i] < bound)
    && (forall i, j :: 0 <= i < j < |ids| ==> ids[i] < ids[j])
  }

  /** Grants so far and the reservations still parked are in order of arrival. */
  ghost predicate InArrivalOrder(p: State) {
    Ascending(p.served + WaiterIds(p.pending), p.arrivals)
  }

  ghost predicate SizesOk(c: Config, pending: seq<Waiter>) {
    forall i :: 0 <= i < |pending| ==> 0 < pending[i].size <= c.limit
  }

  /** The reservation at the head of the queue does not fit. */
  ghost predicate HeadBlocked(c: Config, p: State) {
    p.pending != [] ==> !Fits(c, p.usage, p.pending[0].size)
  }

  ghost predicate Inv(c: Config, p: State) {
    && Core(c, p) && SizesOk(c, p.pending) && InArrivalOrder(p)
    && (NothingLapsed(p.tickets) ==> HeadBlocked(c, p))
  }

  lemma {:induction false} IdsAppend(pending: seq<Waiter>, w: Waiter)
    ensures WaiterIds(pending + [w]) == WaiterIds(pending) + [w.id]
  {
    if pending == [] {
      assert pending + [w] == [w];
      assert [w][1..] == [];
    } else {
      assert (pending + [w])[1..] == pending[1..] + [w];
      IdsAppend(pending[1..], w);
    }
  }

  lemma AscendingDropMiddle(a: seq<nat>, x: nat, b: seq<nat>, bound: nat)
    requires Ascending(a + ([x] + b), bound)
    ensures Ascending(a + b, bound)
  {
    var all, r := a + ([x] + b), a + b;
    forall i | 0 <= i < |r| ensures r[i] < bound {
      assert r[i] == all[if i < |a| then i else i + 1];
    }
    forall i, j | 0 <= i < j < |r| ensures r[i] < r[j] {
      assert r[i] == all[if i < |a| then i else i + 1] && r[j] == all[if j < |a| then j else j + 1];
    }
  }

  /** Dropping cancelled waiters keeps the order of the rest. */
  lemma {:induction false} UncancelledOrder(served: seq<nat>, pending: seq<Waiter>, cancelled: set<nat>, bound: nat)
    requires Ascending(served + WaiterIds(pending), bound)
    ensures Ascending(served + WaiterIds(Uncancelled(pending, cancelled)), bound)
    ensures forall w :: w in Uncancelled(pending, cancelled) ==> w in pending && w.id !in cancelled
    decreases |pending|
  {
    if pending != [] {
      var w, rest := pending[0], pending[1..];
      if w.id in cancelled {
        AscendingDropMiddle(served, w.id, WaiterIds(rest), bound);
        UncancelledOrder(served, rest, cancelled, bound);
        assert [] + Uncancelled(rest, cancelled) == Uncancelled(rest, cancelled);
      } else {
        assert served + [w.id] + WaiterIds(rest) == served + WaiterIds(pending);
        UncancelledOrder(served + [w.id], rest, cancelled, bound);
        var kept := Uncancelled(rest, cancelled);
        assert ([w] + kept)[1..] == kept;
        assert served + [w.id] + WaiterIds(kept) == served + ([w.id] + WaiterIds(kept));
      }
    }
  }

  lemma PoppedOrder(served: seq<nat>, pending: seq<Waiter>, bound: nat)
    requires pending != [] && Ascending(served + WaiterIds(pending), bound)
    ensures Ascending(served + [pending[0].id] + WaiterIds(pending[1..]), bound)
  {
    assert served + [pending[0].id] + WaiterIds(pending[1..]) == served + WaiterIds(pending);
  }

  /** The queue as the granting loop sees it: everything but the blocked head. */
  ghost predicate Queued(c: Config, p: State) {
    Core(c, p) && SizesOk(c, p.pending) && InArrivalOrder(p)
  }

  lemma GrantHead(c: Config, p: State)
    requires Queued(c, p) && p.pending != [] && Granted(c, p, p.pending[0].size)
    ensures var q := TryReserve(c, p, p.pending[0].size);
            Queued(c, q.(pending := p.pending[1..], served := p.served + [p.pending[0].id]))
  {
    hide Core, TryReserve, Granted, Ascending;
    TryReserveCore(c, p, p.pending[0].size);
    PoppedOrder(p.served, p.pending, p.arrivals);
    SamePool(c, TryReserve(c, p, p.pending[0].size), p.pending[1..], p.served + [p.pending[0].id], p.arrivals,
             p.cancelled);
  }

  /** The queue is no part of the core invariant. */
  lemma SamePool(c: Config, p: State, pending: seq<Waiter>, served: seq<nat>, arrivals: nat, cancelled: set<nat>)
    requires Core(c, p)
    ensures Core(c, p.(pending := pending, served := served))
    ensures Core(c, p.(pending := pending, arrivals := arrivals))
    ensures Core(c, p.(pending := pending)) && Core(c, p.(cancelled := cancelled))
  {
    hide TicketsOk, Owned, NoOverlap, BlockCells, SpecialCells, UsageOf, Ids, SpecialIds, DistinctIds, SpecialsOk,
         SpecialBytes;
  }

  /** The granting loop ends with the head blocked. */
  lemma {:induction false} GrantPendingInv(c: Config, p: State)
    requires Queued(c, p)
    ensures Inv(c, GrantPending(c, p))
    decreases |p.pending|
  {
    hide Core, TryReserve, Granted, InArrivalOrder;
    if p.pending != [] {
      var w := p.pending[0];
      TryReserveCore(c, p, w.size);
      if Granted(c, p, w.size) {
        GrantHead(c, p);
        GrantPendingInv(c, TryReserve(c, p, w.size).(pending := p.pending[1..], served := p.served + [w.id]));
      } else {
        SameQueue(p, TryReserve(c, p, w.size));
      }
    }
  }

  lemma SameQueue(p: State, q: State)
    requires q.pending == p.pending && q.served == p.served && q.arrivals == p.arrivals
    ensures InArrivalOrder(p) == InArrivalOrder(q)
  {
  }

  /** Whatever only adds to what is taken keeps the head blocked. */
  lemma KeepsInv(c: Config, p: State, q: State)
    requires Inv(c, p) && Core(c, q) && q.pending == p.pending && q.served == p.served && q.arrivals == p.arrivals
    requires NothingLapsed(q.tickets) ==> NothingLapsed(p.tickets) && Taken(c, p.usage) <= Taken(c, q.usage)
    ensures Inv(c, q)
  {
    hide Core;
    CoreNonNegative(c, p);
    SameQueue(p, q);
  }

  lemma ParkInv(c: Config, p: State, size: nat)
    requires Inv(c, p) && 0 < size <= c.limit && !Fits(c, p.usage, size)
    ensures Inv(c, p.(pending := p.pending + [Waiter(p.arrivals, size)], arrivals := p.arrivals + 1))
  {
    hide Core;
    var w := Waiter(p.arrivals, size);
    IdsAppend(p.pending, w);
    SamePool(c, p, p.pending + [w], p.served, p.arrivals + 1, p.cancelled);
    var ids := p.served + WaiterIds(p.pending);
    assert p.served + WaiterIds(p.pending + [w]) == ids + [w.id];
  }

  lemma ReserveInv(c: Config, p: State, size: nat, forced: bool)
    requires Inv(c, p) && 0 < size
    ensures Inv(c, Reserve(c, p, size, forced))
  {
    hide Core, TryReserve, Granted;
    if size <= c.limit {
      if forced {
        ForcedCore(c, p, size);
        LapsedAppend(p.tickets, Ticket(size, ForcedArea(c, size), true, Reserved));
        KeepsInv(c, p, Reserve(c, p, size, forced));
      } else {
        TryReserveCore(c, p, size);
        KeepsInv(c, p, TryReserve(c, p, size));
        if !Granted(c, p, size) {
          ParkInv(c, TryReserve(c, p, size), size);
        }
      }
    }
  }

  lemma ClaimInv(c: Config, p: State, i: nat)
    requires Inv(c, p) && i < |p.tickets| && p.tickets[i].hold.Reserved?
    ensures Claimable(c, p, i) && Inv(c, Claim(c, p, i))
  {
    hide Core, Claim;
    ClaimCore(c, p, i);
    KeepsInv(c, p, Claim(c, p, i));
  }

  lemma UncancelledSizes(c: Config, pending: seq<Waiter>, cancelled: set<nat>)
    requires SizesOk(c, pending) && forall w :: w in Uncancelled(pending, cancelled) ==> w in pending
    ensures SizesOk(c, Uncancelled(pending, cancelled))
  {
    var kept := Uncancelled(pending, cancelled);
    forall i | 0 <= i < |kept| ensures 0 < kept[i].size <= c.limit {
      assert kept[i] in pending;
    }
  }

  lemma ReleaseInv(c: Config, p: State, i: nat)
    requires Inv(c, p) && Releasable(c, p, i)
    ensures Inv(c, Release(c, p, i))
  {
    hide Core, GiveBack, Ascending, GrantPending, SizesOk;
    GiveBackCore(c, p, i);
    var q := GiveBack(c, p, i);
    UncancelledOrder(q.served, q.pending, q.cancelled, q.arrivals);
    UncancelledSizes(c, q.pending, q.cancelled);
    var kept := Uncancelled(q.pending, q.cancelled);
    SamePool(c, q, kept, q.served, q.arrivals, q.cancelled);
    GrantPendingInv(c, q.(pending := kept));
  }

  lemma TrimInv(c: Config, p: State)
    requires Inv(c, p)
    ensures Inv(c, Trim(c, p)) && Inv(c, TrimSpecials(c, p))
  {
    hide Core;
    TrimCore(c, p);
    TrimSpecialsCore(c, p);
    KeepsInv(c, p, Trim(c, p));
    KeepsInv(c, p, TrimSpecials(c, p));
  }

  lemma AddSizeCore(c: Config, p: State, size: nat)
    requires Core(c, p)
    ensures Core(c, p.(sizes := p.sizes + {size}))
  {
    hide Owned, NoOverlap, BlockCells, SpecialCells, UsageOf;
    forall i | 0 <= i < |p.tickets| ensures TicketOk(c, p.sizes + {size}, p.tickets[i]) {
      assert TicketOk(c, p.sizes, p.tickets[i]);
    }
  }

  lemma AddSizeInv(c: Config, p: State, size: nat)
    requires Inv(c, p)
    ensures Inv(c, AddSpecialSize(c, p, size))
  {
    hide Core;
    AddSizeCore(c, p, size);
    KeepsInv(c, p, AddSpecialSize(c, p, size));
  }

  // ----- Runs -----

  datatype Action =
    | DoReserve(size: nat, forced: bool)
    | DoClaim(ticket: nat)
    | DoRelease(ticket: nat)
    | DoTrim
    | DoAddSize(size: nat)
    | DoReleaseSize
    | DoCancel(waiter: nat)

  ghost predicate Enabled(c: Config, p: State, a: Action) {
    match a
    case DoReserve(size, _) => size > 0
    case DoClaim(i) => Claimable(c, p, i)
    case DoRelease(i) => Releasable(c, p, i)
    case _ => true
  }

  ghost function Step(c: Config, p: State, a: Action): State
    requires Enabled(c, p, a)
  {
    match a
    case DoReserve(size, forced) => Reserve(c, p, size, forced)
    case DoClaim(i) => Claim(c, p, i)
    case DoRelease(i) => Release(c, p, i)
    case DoTrim => Trim(c, p)
    case DoAddSize(size) => AddSpecialSize(c, p, size)
    case DoReleaseSize => TrimSpecials(c, p)
    case DoCancel(w) => p.(cancelled := p.cancelled + {w})
  }

  lemma StepInv(c: Config, p: State, a: Action)
    requires Inv(c, p) && Enabled(c, p, a)
    ensures Inv(c, Step(c, p, a))
  {
    match a
    case DoReserve(size, forced) => ReserveInv(c, p, size, forced);
    case DoClaim(i) => ClaimInv(c, p, i);
    case DoRelease(i) => ReleaseInv(c, p, i);
    case DoTrim => TrimInv(c, p);
    case DoAddSize(size) => AddSizeInv(c, p, size);
    case DoReleaseSize => TrimInv(c, p);
    case DoCancel(w) =>
      SamePool(c, p, p.pending, p.served, p.arrivals, p.cancelled + {w});
      KeepsInv(c, p, Step(c, p, a));
  }

  ghost predicate IsRun(c: Config, p: State, actions: seq<Action>)
    decreases |actions|
  {
    actions == [] || (Enabled(c, p, actions[0]) && IsRun(c, Step(c, p, actions[0]), actions[1..]))
  }

  ghost function After(c: Config, p: State, actions: seq<Action>): State
    requires IsRun(c, p, actions)
    decreases |actions|
  {
    if actions == [] then p else After(c, Step(c, p, actions[0]), actions[1..])
  }

  lemma {:induction false} RunInv(c: Config, p: State, actions: seq<Action>)
    requires Inv(c, p) && IsRun(c, p, actions)
    ensures Inv(c, After(c, p, actions))
    decreases |actions|
  {
    hide Inv;
    if actions != [] {
      StepInv(c, p, actions[0]);
      RunInv(c, Step(c, p, actions[0]), actions[1..]);
    }
  }

  lemma EmptyInv(c: Config)
    ensures Inv(c, EMPTY)
  {
  }

  // ----- The theorems -----

  lemma ReachedInv(c: Config, actions: seq<Action>)
    requires IsRun(c, EMPTY, actions)
    ensures Inv(c, After(c, EMPTY, actions))
  {
    hide IsRun, After;
    EmptyInv(c);
    RunInv(c, EMPTY, actions);
  }

  /** In every reachable state the counters are the sums over the matching tickets if and only if no forced ticket was
      released unclaimed; then no subtraction has underflowed and tickets that were not forced stay within the memory
      limit. Primary storage always holds no more than it has allocated, which is sixteen chunks a block. */
  lemma Accounting(c: Config, actions: seq<Action>)
    requires IsRun(c, EMPTY, actions)
    ensures var p := After(c, EMPTY, actions);
            && (p.usage == SharesOf(p.tickets) <==> NothingLapsed(p.tickets))
            && (NothingLapsed(p.tickets) ==>
                  NonNegative(p.usage) && p.usage.Overall() - p.usage.forcedUsed <= c.limit)
            && p.primaryAllocated == |p.blocks| * 16 * c.chunkSize
            && p.usage.primaryUsed <= p.primaryAllocated
  {
    hide IsRun, After, Inv;
    ReachedInv(c, actions);
    AccountingOf(c, After(c, EMPTY, actions));
  }

  lemma AccountingOf(c: Config, p: State)
    requires Inv(c, p)
    ensures p.usage == SharesOf(p.tickets) <==> NothingLapsed(p.tickets)
    ensures NothingLapsed(p.tickets) ==> NonNegative(p.usage) && WithinLimit(c, p.usage)
    ensures p.primaryAllocated == |p.blocks| * 16 * c.chunkSize && p.usage.primaryUsed <= p.primaryAllocated
  {
    hide TicketsOk, BlocksOk, MasksOk, AllocatedOk, UsageOf, SharesOf, InArrivalOrder, HeadBlocked;
    AllSized(c, p);
    BalancedIff(p.tickets);
    CoreNonNegative(c, p);
    PrimaryWithinAllocated(c, p);
  }

  lemma PrimaryWithinAllocated(c: Config, p: State)
    requires Core(c, p)
    ensures p.usage.primaryUsed <= p.primaryAllocated
    ensures p.primaryAllocated == |p.blocks| * 16 * c.chunkSize
  {
    hide BlockCells, SpecialCells, Owned, NoOverlap, UsageOf, ChunkTotal, TicketsOk;
    AllPrimaryFit(c, p);
    UsedWithinChunks(c, p.tickets);
    OwnedCount(c, p.tickets);
    CellsBound(p.blocks);
    ScaleCells(c, |BlockCells(p.blocks)|, |p.blocks|);
  }

  lemma AllPrimaryFit(c: Config, p: State)
    requires TicketsOk(c, p.sizes, p.tickets)
    ensures forall i :: 0 <= i < |p.tickets| ==> PrimaryFits(c, p.tickets[i])
  {
    forall i | 0 <= i < |p.tickets| ensures PrimaryFits(c, p.tickets[i]) {
      assert TicketOk(c, p.sizes, p.tickets[i]);
    }
  }

  /** Two claimed tickets never share memory: their chunks are disjoint and their special blocks different. A claimed
      ticket's memory lies in a live block and is marked in its mask, and everything marked belongs to some ticket. */
  lemma Disjointness(c: Config, actions: seq<Action>, i: nat, j: nat)
    requires IsRun(c, EMPTY, actions) && i < j < |After(c, EMPTY, actions).tickets|
    ensures var p := After(c, EMPTY, actions);
            && TicketCells(c, p.tickets[i], false) !! TicketCells(c, p.tickets[j], false)
            && TicketCells(c, p.tickets[i], true) !! TicketCells(c, p.tickets[j], true)
            && (p.tickets[i].hold.Whole? && p.tickets[j].hold.Whole? ==> p.tickets[i].hold.id != p.tickets[j].hold.id)
            && (p.tickets[i].hold.Chunks? ==> p.tickets[i].hold.block in Ids(p.blocks))
            && (p.tickets[i].hold.Whole? ==> (p.tickets[i].hold.id, p.tickets[i].size) in SpecialCells(p.specials))
            && Owned(c, p.tickets, false) == BlockCells(p.blocks)
            && Owned(c, p.tickets, true) == SpecialCells(p.specials)
            && DistinctIds(p.blocks) && Ids(p.blocks) !! SpecialIds(p.specials)
  {
    hide IsRun, After, Inv;
    ReachedInv(c, actions);
    DisjointnessOf(c, After(c, EMPTY, actions), i, j);
  }

  lemma DisjointnessOf(c: Config, p: State, i: nat, j: nat)
    requires Inv(c, p) && i < j < |p.tickets|
    ensures TicketCells(c, p.tickets[i], false) !! TicketCells(c, p.tickets[j], false)
    ensures TicketCells(c, p.tickets[i], true) !! TicketCells(c, p.tickets[j], true)
    ensures p.tickets[i].hold.Whole? && p.tickets[j].hold.Whole? ==> p.tickets[i].hold.id != p.tickets[j].hold.id
    ensures p.tickets[i].hold.Chunks? ==> p.tickets[i].hold.block in Ids(p.blocks)
    ensures p.tickets[i].hold.Whole? ==> (p.tickets[i].hold.id, p.tickets[i].size) in SpecialCells(p.specials)
    ensures Owned(c, p.tickets, false) == BlockCells(p.blocks) && Owned(c, p.tickets, true) == SpecialCells(p.specials)
    ensures DistinctIds(p.blocks) && Ids(p.blocks) !! SpecialIds(p.specials)
  {
    hide Owned, BlockCells, SpecialCells, NoOverlap, UsageOf, TicketsOk, Ids, SpecialIds, SpecialsOk, DistinctIds;
    TicketsDisjoint(c, p.tickets, false, i, j);
    TicketsDisjoint(c, p.tickets, true, i, j);
    if p.tickets[i].hold.Chunks? {
      OwnsBlock(c, p, i);
    }
    if p.tickets[i].hold.Whole? {
      OwnsSpecial(c, p, i);
      if p.tickets[j].hold.Whole? {
        OwnsSpecial(c, p, j);
        if p.tickets[i].hold.id == p.tickets[j].hold.id {
          OneSizeEach(p.specials, p.tickets[i].hold.id, p.tickets[i].size, p.tickets[j].size);
        }
      }
    }
  }

  /** A release returns the releasing ticket's memory and no other. */
  lemma ReleaseFreesOnlyItsOwn(c: Config, actions: seq<Action>, i: nat)
    requires IsRun(c, EMPTY, actions) && Releasable(c, After(c, EMPTY, actions), i)
    ensures var p := After(c, EMPTY, actions);
            var q := GiveBack(c, p, i);
            && BlockCells(q.blocks) == BlockCells(p.blocks) - TicketCells(c, p.tickets[i], false)
            && SpecialCells(q.specials) == SpecialCells(p.specials) - TicketCells(c, p.tickets[i], true)
  {
    hide IsRun, After, Core;
    ReachedInv(c, actions);
    ReturnedFreed(c, After(c, EMPTY, actions), i);
  }

  /** Trimming frees no block and no special list that an outstanding ticket needs. */
  lemma TrimIsSafe(c: Config, actions: seq<Action>, i: nat)
    requires IsRun(c, EMPTY, actions) && i < |After(c, EMPTY, actions).tickets|
    ensures var p := After(c, EMPTY, actions);
            var q := Trim(c, p);
            && (p.tickets[i].hold.Chunks? ==> p.tickets[i].hold.block in Ids(q.blocks))
            && (p.tickets[i].hold.Whole? ==> (p.tickets[i].hold.id, p.tickets[i].size) in SpecialCells(q.specials))
            && (p.tickets[i].area.Special? && p.tickets[i].Outstanding() ==> p.tickets[i].size in q.sizes)
            && BlockCells(q.blocks) == BlockCells(p.blocks)
  {
    hide IsRun, After, Core;
    ReachedInv(c, actions);
    TrimKeepsTicket(c, After(c, EMPTY, actions), i);
  }

  lemma TrimKeepsTicket(c: Config, p: State, i: nat)
    requires Core(c, p) && i < |p.tickets|
    ensures var q := Trim(c, p);
            && (p.tickets[i].hold.Chunks? ==> p.tickets[i].hold.block in Ids(q.blocks))
            && (p.tickets[i].hold.Whole? ==> (p.tickets[i].hold.id, p.tickets[i].size) in SpecialCells(q.specials))
            && (p.tickets[i].area.Special? && p.tickets[i].Outstanding() ==> p.tickets[i].size in q.sizes)
            && BlockCells(q.blocks) == BlockCells(p.blocks)
  {
    hide BlockCells, SpecialCells, Owned, NoOverlap, UsageOf, Ids;
    TrimCore(c, p);
    var q := Trim(c, p);
    assert q.tickets == p.tickets;
    assert TicketOk(c, q.sizes, q.tickets[i]);
    if p.tickets[i].hold.Chunks? {
      OwnsBlock(c, q, i);
    }
    if p.tickets[i].hold.Whole? {
      OwnsSpecial(c, q, i);
    }
    TrimKeepsCells(p.blocks);
  }

  /** No stranded waiter, as long as no forced ticket was released unclaimed: while reservations are parked the first of
      them does not fit, and some outstanding ticket counts against the limit, whose release will look at the queue
      again. */
  lemma NoStrandedWaiter(c: Config, actions: seq<Action>)
    requires IsRun(c, EMPTY, actions) && After(c, EMPTY, actions).pending != []
    ensures var p := After(c, EMPTY, actions);
            NothingLapsed(p.tickets) ==>
              && !Fits(c, p.usage, p.pending[0].size)
              && exists i :: 0 <= i < |p.tickets| && Weight(p.tickets[i]).Overall() > 0 && Releasable(c, p, i)
  {
    hide IsRun, After, Inv, NothingLapsed;
    ReachedInv(c, actions);
    if NothingLapsed(After(c, EMPTY, actions).tickets) {
      WaitsForTicket(c, After(c, EMPTY, actions));
    }
  }

  lemma WaitsForTicket(c: Config, p: State)
    requires Inv(c, p) && p.pending != [] && NothingLapsed(p.tickets)
    ensures !Fits(c, p.usage, p.pending[0].size)
    ensures exists i :: 0 <= i < |p.tickets| && Weight(p.tickets[i]).Overall() > 0 && Releasable(c, p, i)
  {
    hide UsageOf, BlocksOk, MasksOk, AllocatedOk;
    UsageNonNegative(p.tickets);
    TakenHasTicket(p.tickets);
    var i :| 0 <= i < |p.tickets| && Weight(p.tickets[i]).Overall() > 0;
    assert TicketOk(c, p.sizes, p.tickets[i]);
    assert Releasable(c, p, i);
  }

  /** Parked reservations are granted in the order they arrived, and every one still parked arrived after
      every one granted. */
  lemma GrantsInArrivalOrder(c: Config, actions: seq<Action>)
    requires IsRun(c, EMPTY, actions)
    ensures var p := After(c, EMPTY, actions);
            Ascending(p.served + WaiterIds(p.pending), p.arrivals)
  {
    hide IsRun, After, Core;
    ReachedInv(c, actions);
  }

  // ----- Releasing a forced ticket unclaimed -----

  /** The state after a forced reservation and its release, as of a new pool. */
  function AfterLapse(c: Config, size: nat): State {
    EMPTY.(usage := AddReserved(NOTHING, ForcedArea(c, size), 0 - size),
           tickets := [Ticket(size, ForcedArea(c, size), true, Lapsed)])
  }

  lemma LapseRun(c: Config, size: nat)
    requires 0 < size <= c.limit
    ensures var actions := [DoReserve(size, true), DoRelease(0)];
            IsRun(c, EMPTY, actions) && After(c, EMPTY, actions) == AfterLapse(c, size)
  {
    var actions := [DoReserve(size, true), DoRelease(0)];
    var p := Reserve(c, EMPTY, size, true);
    assert p.tickets == [Ticket(size, ForcedArea(c, size), true, Reserved)];
    assert Releasable(c, p, 0);
    assert GiveBack(c, p, 0).tickets == AfterLapse(c, size).tickets;
    assert Step(c, p, DoRelease(0)) == AfterLapse(c, size);
    RunOfTwo(c, EMPTY, DoReserve(size, true), DoRelease(0));
  }

  lemma RunOfTwo(c: Config, p: State, a: Action, b: Action)
    requires Enabled(c, p, a) && Enabled(c, Step(c, p, a), b)
    ensures IsRun(c, p, [a, b]) && After(c, p, [a, b]) == Step(c, Step(c, p, a), b)
  {
    hide Enabled, Step;
    assert [a, b][1..] == [b] && [b][1..] == [];
    var q := Step(c, p, a);
    assert IsRun(c, Step(c, q, b), []) && After(c, Step(c, q, b), []) == Step(c, q, b);
    assert IsRun(c, q, [b]) && After(c, q, [b]) == Step(c, q, b);
  }

  /** The accounting fails: reserving a forced buffer and releasing it unclaimed leaves a counter below zero. */
  lemma LapseUnderflows(c: Config, size: nat)
    requires 0 < size <= c.limit
    ensures var actions := [DoReserve(size, true), DoRelease(0)];
            IsRun(c, EMPTY, actions) && !NonNegative(After(c, EMPTY, actions).usage)
  {
    hide IsRun, After;
    LapseRun(c, size);
    assert !NonNegative(AfterLapse(c, size).usage);
  }

  /** And a smaller reservation made then is parked although nothing is outstanding that could be released. */
  lemma LapseStrands(c: Config, size: nat, less: nat)
    requires 0 < less < size <= c.limit
    ensures var p := AfterLapse(c, size);
            var q := Reserve(c, p, less, false);
            && q.pending == [Waiter(0, less)] && forall i :: 0 <= i < |q.tickets| ==> !q.tickets[i].Outstanding()
  {
    var p := AfterLapse(c, size);
    assert p.usage.Overall() == Taken(c, p.usage) == 0 - size;
    assert !ShouldTrim(c, p, less);
    assert !Granted(c, p, less);
    assert [] + [Waiter(0, less)] == [Waiter(0, less)];
  }
}
