/** From the client's part arithmetic to what the caller receives. */
module ObjectDownload {
  import opened ObjectParts
  import opened PartTiling
  import opened Delivery
  import opened DeliveryLog
  import opened DeliverySafety
  import opened DeliveryImage
  import opened AutoRangedGet
  import opened GetRuns

  /** How a download is delivered. */
  datatype Mode = Mode(windowed: bool, outOfOrder: bool, parallelWrites: bool)

  /** The parts a download asks for, when each response body fills its range. */
  function RequestedParts(data: seq<byte>, size: nat, first: nat, start: nat, end: nat): seq<Part>
    requires size > 0 && first > 0 && start <= end < |data|
  {
    var ranges := GetRanges(size, first, start, end, 1);
    GetTiles(size, first, start, end);
    TilesInside(ranges, start, end + 1);
    PartsOf(data, ranges)
  }

  /** `reserved` is the size the first part's recorded range is given: that of the buffer reserved for it when it is
      requested by part number, the part's own otherwise. */
  function ObjectPlan(data: seq<byte>, size: nat, first: nat, start: nat, end: nat, reserved: nat, mode: Mode): Plan
    requires size > 0 && first > 0 && start <= end < |data|
  {
    var parts := WithReserved(RequestedParts(data, size, first, start, end), reserved);
    Plan(parts, |parts|, mode.windowed, mode.outOfOrder, mode.parallelWrites)
  }

  lemma RequestedPartsTile(data: seq<byte>, size: nat, first: nat, start: nat, end: nat)
    requires size > 0 && first > 0 && start <= end < |data|
    ensures var parts := RequestedParts(data, size, first, start, end);
            && parts != [] && parts[0].start == start && parts[0].body != []
            && Contiguous(parts) && Linked(parts) && Content(parts) == data[start..end + 1]
  {
    var ranges := GetRanges(size, first, start, end, 1);
    GetTiles(size, first, start, end);
    TiledObject(data, ranges, start, end + 1);
    var parts := PartsOf(data, ranges);
    assert ranges != [];
    assert ranges[0].start == start <= ranges[0].end;
    assert parts[0].body == data[start..ranges[0].end + 1];
  }

  lemma {:induction false} SameBodies(a: seq<Part>, b: seq<Part>)
    requires |a| == |b| && forall i :: 0 <= i < |a| ==> a[i].body == b[i].body
    ensures Content(a) == Content(b)
  {
    if a != [] {
      SameBodies(a[..|a| - 1], b[..|b| - 1]);
    }
  }

  lemma ObjectPlanOk(data: seq<byte>, size: nat, first: nat, start: nat, end: nat, reserved: nat, mode: Mode)
    requires size > 0 && first > 0 && start <= end < |data| && reserved > 0 && (mode.windowed ==> !mode.parallelWrites)
    ensures var plan := ObjectPlan(data, size, first, start, end, reserved, mode);
            && PlanOk(plan) && plan.parts != [] && plan.parts[0].start == start
            && Content(plan.parts) == data[start..end + 1] && plan.outOfOrder == mode.outOfOrder
            && (Joins(plan) <==> mode.outOfOrder ==> |plan.parts| == 1 || reserved == |plan.parts[0].body|)
  {
    hide RequestedParts, Contiguous, Linked, Content;
    var parts := RequestedParts(data, size, first, start, end);
    RequestedPartsTile(data, size, first, start, end);
    ReservedFirstPart(parts, reserved);
    SameBodies(parts, WithReserved(parts, reserved));
  }

  lemma ImageOfRange(plan: Plan, image: Image, data: seq<byte>, start: nat, end: nat)
    requires IsObject(plan, image) && plan.parts != [] && plan.parts[0].start == start
    requires start <= end < |data| && Content(plan.parts) == data[start..end + 1]
    ensures forall k :: k in image <==> start <= k <= end
    ensures forall k :: k in image ==> image[k] == data[k]
  {
    hide Content;
  }

  /** A download of any range of any object, cut by the client's part sizes, that finishes without failure: in object
      order the caller received exactly that range; in any mode, writing what was delivered at its offsets gives
      exactly that range; and delivered out of order in several parts, the first part was of the size reserved. */
  lemma ObjectDownloaded(data: seq<byte>, size: nat, first: nat, start: nat, end: nat, reserved: nat, mode: Mode,
                         c: Config, window: nat, actions: seq<GetAction>)
    requires size > 0 && first > 0 && start <= end < |data| && reserved > 0 && (mode.windowed ==> !mode.parallelWrites)
    requires var plan := ObjectPlan(data, size, first, start, end, reserved, mode);
             && window < U64 && IsGetRun(plan, c, Start(window), actions)
             && AfterGet(plan, c, Start(window), actions).finished
             && !AfterGet(plan, c, Start(window), actions).m.failed
    ensures var plan := ObjectPlan(data, size, first, start, end, reserved, mode);
            var log := AfterGet(plan, c, Start(window), actions).m.log;
            && (!mode.outOfOrder ==> Bytes(log) == data[start..end + 1])
            && (forall k :: k in ImageOf(log) <==> start <= k <= end)
            && (forall k :: k in ImageOf(log) ==> ImageOf(log)[k] == data[k])
            && (mode.outOfOrder && |plan.parts| > 1 ==> reserved == |plan.parts[0].body|)
  {
    hide ObjectPlan, Joins, IsObject, Content, Bytes, ImageOf, PlanOk, IsGetRun, AfterGet, Start;
    var plan := ObjectPlan(data, size, first, start, end, reserved, mode);
    ObjectPlanOk(data, size, first, start, end, reserved, mode);
    WholeDownload(plan, c, window, actions, 1);
    ImageOfRange(plan, ImageOf(AfterGet(plan, c, Start(window), actions).m.log), data, start, end);
  }
}
