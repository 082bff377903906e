/** The auto-ranged GET as it is updated in place, on top of the meta request it specialises, each method proved
    against its step function. */
module GetRequest {
  import opened Arithmetic
  import opened DeliveredMask
  import opened Delivery
  import opened DeliveryTask
  import PartSpread
  import opened AutoRangedGet

  /** Counters of requests, as the source keeps them beside the flags. */
  datatype Tallies = Tallies(requested: nat, completed: nat, successful: nat, failedParts: nat)

  class DownloadRequest {
    const plan: Plan
    const config: Config
    const meta: MetaRequest
    var known: bool
    var empty: bool
    var headSent: bool
    var headDone: bool
    var tallies: Tallies
    var total: nat
    var spread: PartSpread.Spread
    var discovery: Discovery
    var inFlight: set<nat>
    var lost: set<nat>
    var finished: bool

    ghost function Model(): Get
      reads this, meta, meta.prefix
    {
      Get(known, empty, headSent, headDone, tallies.requested, tallies.completed, tallies.successful,
          tallies.failedParts, total, spread, discovery, inFlight, lost, meta.Model(), finished)
    }

    ghost predicate Sound()
      reads this, meta, meta.mask, meta.mask.bytes
    {
      meta.plan == plan && meta.Valid() && meta.nextPart > 0
    }

    /** While the object's range is known the delivery mask is in place. */
    ghost predicate Valid()
      reads this, meta, meta.mask, meta.mask.bytes
    {
      Sound() && (known && !finished ==> meta.Discovered())
    }

    constructor (plan: Plan, config: Config, backpressure: bool, window: nat)
      requires plan.total < U32
      ensures this.plan == plan && this.config == config && Model() == Start(window) && Valid()
    {
      this.plan, this.config := plan, config;
      known, empty, headSent, headDone, tallies := false, false, false, false, Tallies(0, 0, 0, 0);
      total, spread, discovery, inFlight, lost := 0, PartSpread.OFF, NotOut, {}, {};
      meta := new MetaRequest(plan, backpressure, window);
      finished := false;
    }

    /** `s_s3_get_request_type_for_discovering_object_size`; after an empty-file error it asks for part 1, once. */
    method ChooseDiscovery() returns (kind: Kind)
      modifies this`empty
      ensures kind == DiscoverBy(config, old(empty)) && !empty
    {
      if empty {
        empty := false;
        return PartNumber1;
      }
      if config.hasRange {
        if config.hasStart {
          return Range;
        }
        return Head;
      }
      if config.hintFits {
        return PartNumber1;
      }
      if !config.needsHead {
        return Range;
      }
      return Head;
    }

    method SendDiscoveryRequest() returns (kind: Kind)
      modifies this`empty, this`headSent, this`discovery, this`tallies
      ensures Model() == SendDiscovery(config, old(Model())) && discovery == Out(kind)
    {
      kind := ChooseDiscovery();
      if kind.Head? {
        headSent := true;
      } else {
        tallies := tallies.(requested := tallies.requested + 1);
      }
      discovery := Out(kind);
    }

    /** `s_next_part_number_synced`. */
    method NextPartNumber() returns (part: nat)
      modifies this`spread
      ensures (part, spread) == PartSpread.Next(old(spread), tallies.requested)
    {
      hide PartSpread.RegionStart;
      if spread.numRegions < 2 {
        return tallies.requested + 1;
      }
      var i := spread.handedOut;
      var start := RegionBegin(i % spread.numRegions);
      part := start + i / spread.numRegions;
      spread := spread.(handedOut := i + 1);
    }

    /** Where a region begins: each of the first `numLarge` regions is one part wider. */
    method RegionBegin(region: nat) returns (start: nat)
      ensures start == PartSpread.RegionStart(spread, region)
    {
      if region < spread.numLarge {
        start := spread.first + region * (spread.regionSize + 1);
      } else {
        start := spread.first + spread.numLarge * (spread.regionSize + 1)
                 + (region - spread.numLarge) * spread.regionSize;
      }
    }

    method SendPartRequest() returns (part: nat)
      modifies this`spread, this`tallies, this`inFlight
      ensures Model() == SendPart(old(Model())) && part == NextPart(old(Model()))
    {
      hide PartSpread.Next;
      part := NextPartNumber();
      tallies := tallies.(requested := tallies.requested + 1);
      inFlight := inFlight + {part};
    }

    /** `aws_s3_meta_request_validate_parts_delivered_synced`, for a download about to report success. */
    method ValidateDelivery() returns (ok: bool)
      requires Valid() && known && !finished
      ensures ok <==> MaskFull(plan, meta.Model())
    {
      var missing;
      ok, missing := meta.mask.ValidatePartsDelivered();
      if plan.total > 0 {
        ExpectedByteCount(plan.total);
        HeldInRange(meta.mask.bytes[..], plan.total);
      }
    }

    /** The download ends. If nothing has failed the mask is validated and freed, and a gap is a failure. */
    method FinishRequest()
      requires Valid() && !finished && (meta.failed || known)
      modifies this`finished, meta`failed, meta.mask
      ensures Valid() && Model() == Finish(plan, old(Model())) && finished
    {
      hide MaskFull;
      if !meta.failed {
        var ok := ValidateDelivery();
        meta.mask.Release();
        if !ok {
          meta.SetFail();
        }
      }
      finished := true;
    }

    /** Is nothing left to request or deliver? */
    method NoWorkLeft() returns (r: bool)
      ensures r == Idle(Model())
    {
      if !meta.failed {
        r := known && tallies.requested >= total && meta.completed >= total && meta.completed >= meta.sent;
      } else {
        r := (headSent ==> headDone) && tallies.completed >= tallies.requested && meta.completed >= meta.sent;
      }
    }

    /** `s_s3_auto_ranged_get_update`: whether work remains. */
    method UpdateRequest(hold: bool) returns (workRemaining: bool)
      requires Valid() && !finished
      modifies this, meta`failed, meta.mask
      ensures Valid() && Model() == Update(plan, config, old(Model()), hold)
      ensures workRemaining == !finished
    {
      hide SendDiscovery, SendPart, Finish, Idle;
      workRemaining := true;
      if !meta.failed && !known {
        if !(headSent || tallies.requested > 0 || hold) {
          var kind := SendDiscoveryRequest();
        }
      } else if !meta.failed && tallies.requested < total {
        if !hold {
          var part := SendPartRequest();
        }
      } else {
        var idle := NoWorkLeft();
        if idle && meta.events == [] && !meta.run.active {
          FinishRequest();
          workRemaining := false;
        }
      }
    }

    /** The body of a finished part goes to delivery, after the progress event. */
    method StreamPart(p: nat, progress: bool)
      requires Sound()
      modifies meta`arrived, meta`pending, meta`nextPart, meta`events, meta`scheduled, meta`sent, meta`writes
      ensures Sound() && (old(meta.Discovered()) ==> meta.Discovered())
      ensures var m := old(meta.Model());
              meta.Model() == Stream(plan, if progress then AddEvent(m, Notice) else m, p)
    {
      hide Stream, AddEvent, MetaRequest.Model;
      if progress {
        meta.AddEventForDelivery(Notice);
      }
      meta.StreamResponseBody(p);
    }

    method CountFinishedPart(p: nat, ok: bool, progress: bool)
      requires Sound()
      modifies this`tallies, this`inFlight, this`lost
      modifies meta`arrived, meta`pending, meta`nextPart, meta`events, meta`scheduled, meta`sent, meta`writes
      ensures Sound() && (old(meta.Discovered()) ==> meta.Discovered())
      ensures Model() == CountPart(plan, old(Model()), p, ok, progress)
    {
      hide Stream, AddEvent, MetaRequest.Model;
      inFlight := inFlight - {p};
      if ok {
        tallies := tallies.(completed := tallies.completed + 1, successful := tallies.successful + 1);
        StreamPart(p, progress);
      } else {
        tallies := tallies.(completed := tallies.completed + 1, failedParts := tallies.failedParts + 1);
        lost := lost + {p};
      }
    }

    method PartRequestFinished(p: nat, ok: bool, progress: bool)
      requires Valid()
      modifies this`tallies, this`inFlight, this`lost, meta
      ensures Valid() && Model() == PartFinished(plan, old(Model()), p, ok, progress)
    {
      hide CountPart;
      CountFinishedPart(p, ok, progress);
      Fail(!ok);
    }

    method Fail(error: bool)
      modifies meta`failed
      ensures old(Valid()) ==> Valid()
      ensures Model() == SetFail(old(Model()), error)
    {
      if error {
        meta.SetFail();
      }
    }

    /** The object's range becomes known, and its part count sizes the delivery mask. */
    method RecordRange(r: Reply)
      requires Sound() && meta.marked == {} && (r.found && !r.objectEmpty ==> plan.total > 0)
      modifies this`known, this`empty, this`total, meta.mask
      ensures Sound() && (old(meta.Discovered()) || (r.found && !r.objectEmpty) ==> meta.Discovered())
      ensures known == (old(known) || r.found)
      ensures Model() == RecordDiscovery(plan, old(Model()), r)
    {
      if r.found {
        known, empty := true, r.objectEmpty;
        if !empty {
          total := plan.total;
          meta.SizeMask();
        }
      }
    }

    method CountDiscoveryRequest(kind: Kind, r: Reply)
      requires Sound()
      modifies this`headDone, this`tallies, this`known, this`inFlight, this`lost
      modifies meta`arrived, meta`pending, meta`nextPart, meta`events, meta`scheduled, meta`sent, meta`writes
      ensures Sound() && (old(meta.Discovered()) ==> meta.Discovered())
      ensures known == (old(known) && !(r.emptyFile && !kind.Head? && !(r.mismatch && r.found)))
      ensures Model() == CountDiscovery(plan, old(Model()), kind, r)
    {
      hide CountPart;
      if kind.Head? {
        headDone := true;
      } else if r.mismatch && r.found {
        tallies := tallies.(requested := 0);
      } else if r.emptyFile {
        tallies := tallies.(requested := 0);
        known := false;
      } else {
        CountFinishedPart(1, !r.requestFailed, r.progress);
      }
    }

    method SetUpSpread()
      modifies this`spread
      ensures old(Valid()) ==> Valid()
      ensures Model() == InitSpread(plan, config, old(Model()))
    {
      hide PartSpread.Init;
      if known {
        spread := PartSpread.Init(plan.outOfOrder && !config.sequential, tallies.requested, total, config.connections);
      }
    }

    /** `s_s3_auto_ranged_get_request_finished` for the discovery request, before which nothing was delivered. */
    method DiscoveryRequestFinished(r: Reply)
      requires Valid() && !finished && discovery.Out? && ReplyOk(plan, config, discovery.kind, r) && meta.marked == {}
      modifies this, meta, meta.mask
      ensures Valid() && Model() == DiscoveryFinished(plan, config, old(Model()), r)
    {
      hide RecordDiscovery, CountDiscovery, SetFail, InitSpread;
      hide Model, Valid;
      var kind := TakeDiscovery();
      SettleDiscovery(kind, r);
      Fail(r.error);
      SetUpSpread();
    }

    method SettleDiscovery(kind: Kind, r: Reply)
      requires Valid() && !finished && ReplyOk(plan, config, kind, r) && meta.marked == {}
      modifies this`known, this`empty, this`total, this`headDone, this`tallies, this`inFlight, this`lost, meta.mask
      modifies meta`arrived, meta`pending, meta`nextPart, meta`events, meta`scheduled, meta`sent, meta`writes
      ensures Valid() && Model() == CountDiscovery(plan, RecordDiscovery(plan, old(Model()), r), kind, r)
    {
      hide RecordDiscovery, CountDiscovery, Model, MetaRequest.Model;
      RecordRange(r);
      CountDiscoveryRequest(kind, r);
    }

    /** The discovery request is no longer out. */
    method TakeDiscovery() returns (kind: Kind)
      requires discovery.Out?
      modifies this`discovery
      ensures old(Valid()) ==> Valid()
      ensures old(discovery) == old(Model()).discovery == Out(kind) && Model() == old(Model()).(discovery := NotOut)
    {
      kind := discovery.kind;
      discovery := NotOut;
    }
  }
}
