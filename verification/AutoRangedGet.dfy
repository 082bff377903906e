/** The auto-ranged GET: discovering the object, handing out part requests, and deciding when the download is
    finished, on top of the delivery engine.

    `Plan` is what the download's discovery settles on: the run reveals it when a discovery response succeeds.
    Connection limits and the read-window throttle appear as the `hold` argument of an update. */
module AutoRangedGet {
  import opened Numbering
  import DeliveredMask
  import opened Delivery
  import opened PartSpread

  /** The request that also discovers the object's size. */
  datatype Kind = Head | PartNumber1 | Range

  /** What the caller's request and the client settle before discovery. */
  datatype Config = Config(
    hasRange: bool, hasStart: bool,    // a Range header, and whether it has a start
    hintFits: bool,                    // an object size hint no larger than a part
    needsHead: bool,                   // a whole-download checksum is wanted and not known yet
    sequential: bool,                  // force_sequential_requests
    connections: nat)

  datatype Discovery = NotOut | Out(kind: Kind)

  datatype Get = Get(
    known: bool,              // object_range_known
    empty: bool,              // object_range_empty
    headSent: bool, headDone: bool,
    requested: nat, completed: nat, successful: nat, failedParts: nat,
    total: nat,               // total_num_parts
    spread: Spread,
    discovery: Discovery,     // the discovery request, while it is out
    inFlight: set<nat>,       // the other part requests that are out
    lost: set<nat>,           // parts whose request failed
    m: Meta,
    finished: bool)

  function Start(window: nat): Get {
    Get(false, false, false, false, 0, 0, 0, 0, 0, OFF, NotOut, {}, {}, Delivery.Init(window), false)
  }

  /** `s_s3_get_request_type_for_discovering_object_size`. */
  function DiscoverBy(c: Config, empty: bool): Kind {
    if empty then PartNumber1
    else if c.hasRange then (if c.hasStart then Range else Head)
    else if c.hintFits then PartNumber1
    else if !c.needsHead then Range
    else Head
  }

  function SendDiscovery(c: Config, g: Get): Get {
    var kind := DiscoverBy(c, g.empty);
    g.(empty := false, discovery := Out(kind), headSent := g.headSent || kind.Head?,
       requested := if kind.Head? then g.requested else g.requested + 1)
  }

  function NextPart(g: Get): nat {
    PartSpread.Next(g.spread, g.requested).0
  }

  function SendPart(g: Get): Get {
    var (part, spread) := PartSpread.Next(g.spread, g.requested);
    g.(spread := spread, requested := g.requested + 1, inFlight := g.inFlight + {part})
  }

  // ----- update -----

  predicate EventsOut(m: Meta) {
    m.events != [] || m.active
  }

  /** Nothing is left to request or deliver. */
  predicate Idle(g: Get) {
    if !g.m.failed then
      g.known && g.requested >= g.total && g.m.completed >= g.total && g.m.completed >= g.m.sent
    else
      (g.headSent ==> g.headDone) && g.completed >= g.requested && g.m.completed >= g.m.sent
  }

  /** `aws_s3_meta_request_validate_parts_delivered_synced`: with no mask there is nothing to validate. The mask has
      one bit per part, and the check computes the byte count it expects in 32 bits. */
  ghost predicate MaskFull(plan: Plan, m: Meta) {
    || plan.total == 0
    || (DeliveredMask.ExpectedBytes(plan.total) == (plan.total + 7) / 8 && Parts(plan.total) <= m.marked)
  }

  ghost function Finish(plan: Plan, g: Get): Get {
    g.(finished := true, m := g.m.(failed := g.m.failed || !MaskFull(plan, g.m)))
  }

  /** `s_s3_auto_ranged_get_update`. */
  ghost function Update(plan: Plan, c: Config, g: Get, hold: bool): Get {
    if !g.m.failed && !g.known then
      (if g.headSent || g.requested > 0 || hold then g else SendDiscovery(c, g))
    else if !g.m.failed && g.requested < g.total then (if hold then g else SendPart(g))
    else if !Idle(g) || EventsOut(g.m) then g
    else Finish(plan, g)
  }

  // ----- request finished -----

  /** How the discovery request ended. `error` is the error the meta request is left with: the request's
      own, unless the response still told the object's size, or one raised on the way. */
  datatype Reply = Reply(
    found: bool,            // the size was discovered
    requestFailed: bool,
    mismatch: bool,         // the first part did not fit the hint-sized buffer
    emptyFile: bool,        // the range request failed because the object is empty
    objectEmpty: bool,      // the size discovered is 0
    error: bool,
    progress: bool)         // a progress event is reported

  /** What a discovery request of each kind can answer, and that the plan is what it reveals. */
  predicate ReplyOk(plan: Plan, c: Config, kind: Kind, r: Reply) {
    && (!r.found ==> r.error && !r.emptyFile)
    && (r.mismatch ==> kind.PartNumber1? && r.requestFailed && !r.objectEmpty)
    && (r.emptyFile ==> kind.Range? && r.requestFailed && r.found && r.objectEmpty && !c.hasRange)
    && (r.requestFailed && !r.mismatch && !r.emptyFile ==> !r.found)
    && (kind.Range? && r.objectEmpty && r.found ==> r.emptyFile)
    && (!r.requestFailed && !kind.Head? ==> |plan.parts| >= 1)
    && (r.found && !r.emptyFile ==>
          if r.objectEmpty then plan.total == 0 && |plan.parts| == (if kind.Head? then 0 else 1)
          else plan.total == |plan.parts| >= 1)
  }

  /** A part request has finished; on success its body is streamed. */
  function CountPart(plan: Plan, g: Get, p: nat, ok: bool, progress: bool): Get {
    var h := g.(completed := g.completed + 1, inFlight := g.inFlight - {p});
    if !ok then h.(failedParts := h.failedParts + 1, lost := h.lost + {p})
    else
      h.(successful := h.successful + 1,
         m := Stream(plan, if progress then AddEvent(h.m, Notice) else h.m, p))
  }

  function SetFail(g: Get, error: bool): Get {
    if error then g.(m := g.m.(failed := true)) else g
  }

  function RecordDiscovery(plan: Plan, g: Get, r: Reply): Get {
    if r.found then
      g.(known := true, empty := r.objectEmpty, total := if r.objectEmpty then g.total else plan.total)
    else g
  }

  /** What becomes of the discovery request itself. */
  function CountDiscovery(plan: Plan, g: Get, kind: Kind, r: Reply): Get {
    if kind.Head? then g.(headDone := true)
    else if r.mismatch && r.found then g.(requested := 0)
    else if r.emptyFile then g.(requested := 0, known := false)
    else CountPart(plan, g, 1, !r.requestFailed, r.progress)
  }

  function InitSpread(plan: Plan, c: Config, g: Get): Get {
    if g.known then g.(spread := PartSpread.Init(plan.outOfOrder && !c.sequential, g.requested, g.total, c.connections))
    else g
  }

  /** `s_s3_auto_ranged_get_request_finished` for the discovery request. */
  function DiscoveryFinished(plan: Plan, c: Config, g: Get, r: Reply): Get
    requires g.discovery.Out?
  {
    var h := RecordDiscovery(plan, g.(discovery := NotOut), r);
    InitSpread(plan, c, SetFail(CountDiscovery(plan, h, g.discovery.kind, r), r.error))
  }

  /** `s_s3_auto_ranged_get_request_finished` for any other part. */
  function PartFinished(plan: Plan, g: Get, p: nat, ok: bool, progress: bool): Get {
    SetFail(CountPart(plan, g, p, ok, progress), !ok)
  }
}
