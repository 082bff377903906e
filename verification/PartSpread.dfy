/** The order in which a download hands out its part numbers: a sweep, or a block-cyclic spread that rotates
    over far-apart regions of the object. */
module PartSpread {
  import opened Arithmetic

  /** `numRegions` below 2 means the spread is off. */
  datatype Spread = Spread(numRegions: nat, regionSize: nat, numLarge: nat, first: nat, handedOut: nat)

  const OFF := Spread(0, 0, 0, 0, 0)

  /** `s_init_spread_synced`: `spreading` says that the client allows it and delivery is out of order. */
  function Init(spreading: bool, requested: nat, total: nat, connections: nat): Spread {
    var first := requested + 1;
    if !spreading || first > total || connections <= 1 || total - first + 1 <= connections then OFF
    else
      var remaining := total - first + 1;
      Spread(connections, remaining / connections, remaining % connections, first, 0)
  }

  /** Where a region begins. */
  function RegionStart(s: Spread, region: nat): nat {
    if region < s.numLarge then s.first + region * (s.regionSize + 1)
    else s.first + s.numLarge * (s.regionSize + 1) + (region - s.numLarge) * s.regionSize
  }

  function RegionWidth(s: Spread, region: nat): nat {
    s.regionSize + if region < s.numLarge then 1 else 0
  }

  /** The part number handed out at index `i` of an active spread. */
  function PartAt(s: Spread, i: nat): nat
    requires s.numRegions >= 2
  {
    RegionStart(s, i % s.numRegions) + i / s.numRegions
  }

  /** `s_next_part_number_synced`. */
  function Next(s: Spread, requested: nat): (nat, Spread) {
    if s.numRegions < 2 then (requested + 1, s)
    else (PartAt(s, s.handedOut), s.(handedOut := s.handedOut + 1))
  }

  // ----- Reference: the region and the step a part number belongs to -----

  /** The spread covers `total` parts from `first`. */
  ghost predicate Covers(s: Spread, count: nat) {
    && 2 <= s.numRegions < count
    && count == s.numRegions * s.regionSize + s.numLarge && s.numLarge < s.numRegions && s.regionSize >= 1
  }

  function RegionOf(s: Spread, part: nat): nat
    requires s.regionSize >= 1 && part >= s.first
  {
    var offset := part - s.first;
    var wide := s.numLarge * (s.regionSize + 1);
    if offset < wide then offset / (s.regionSize + 1) else s.numLarge + (offset - wide) / s.regionSize
  }

  function StepOf(s: Spread, part: nat): nat
    requires s.regionSize >= 1 && part >= s.first
  {
    var offset := part - s.first;
    var wide := s.numLarge * (s.regionSize + 1);
    if offset < wide then offset % (s.regionSize + 1) else (offset - wide) % s.regionSize
  }

  /** When a part is handed out. */
  function IndexOf(s: Spread, part: nat): nat
    requires s.regionSize >= 1 && part >= s.first
  {
    StepOf(s, part) * s.numRegions + RegionOf(s, part)
  }

  // ----- Arithmetic -----

  /** A quotient and remainder are determined by the sum they make up. */
  lemma DivModUnique(q: nat, r: nat, k: nat)
    requires k > 0 && r < k
    ensures (q * k + r) / k == q && (q * k + r) % k == r
  {
    var i := q * k + r;
    DivMod(i, k);
    Sandwich(q, i / k, k, i, r, i % k);
  }

  lemma Sandwich(q: nat, q': nat, k: nat, i: nat, r: nat, r': nat)
    requires i == q * k + r && i == q' * k + r' && r < k && r' < k
    ensures q == q' && r == r'
  {
    if q < q' {
      Scale(q + 1, q', k);
      Distribute(q, k);
    } else if q' < q {
      Scale(q' + 1, q, k);
      Distribute(q', k);
    }
  }

  lemma Quotient(x: nat, k: nat, n: nat)
    requires k > 0 && x < n * k
    ensures x / k < n && x == (x / k) * k + x % k && x % k < k
  {
    DivMod(x, k);
    if x / k >= n {
      Scale(n, x / k, k);
    }
  }

  lemma RemaindersDiffer(i: nat, j: nat, k: nat)
    requires k > 0 && i < j < i + k
    ensures i % k != j % k
  {
    var a, b := i / k, j / k;
    DivMod(i, k);
    DivMod(j, k);
    if i % k == j % k {
      SameRemainder(i, j, k, a, b, i % k);
    }
  }

  lemma SameRemainder(i: nat, j: nat, k: nat, a: nat, b: nat, r: nat)
    requires i == a * k + r && j == b * k + r && i < j
    ensures j >= i + k
  {
    if b <= a {
      Scale(b, a, k);
    } else {
      Scale(a + 1, b, k);
      Distribute(a, k);
    }
  }

  // ----- The permutation -----

  lemma InitCovers(requested: nat, total: nat, connections: nat)
    ensures var s := Init(true, requested, total, connections);
            if 2 <= connections < total - requested then
              && Covers(s, total - requested) && s.first == requested + 1 && s.handedOut == 0
              && s.numRegions == connections
            else s == OFF
  {
    if 2 <= connections < total - requested {
      var remaining := total - requested;
      DivMod(remaining, connections);
      assert (remaining / connections) * connections == connections * (remaining / connections);
    }
  }

  /** Each region is as wide as the steps that reach into it. */
  lemma StepInRegion(s: Spread, count: nat, i: nat)
    requires Covers(s, count) && i < count
    ensures i / s.numRegions < RegionWidth(s, i % s.numRegions)
  {
    var k, step, region := s.numRegions, i / s.numRegions, i % s.numRegions;
    DivMod(i, k);
    assert k * s.regionSize == s.regionSize * k;
    if step >= RegionWidth(s, region) {
      Scale(RegionWidth(s, region), step, k);
      if region < s.numLarge {
        Distribute(s.regionSize, k);
      }
    }
  }

  /** A part inside a region is found in that region, at its step. */
  lemma InRegion(s: Spread, region: nat, step: nat)
    requires s.regionSize >= 1 && region < s.numRegions && s.numLarge <= s.numRegions && step < RegionWidth(s, region)
    ensures var part := RegionStart(s, region) + step;
            part >= s.first && RegionOf(s, part) == region && StepOf(s, part) == step
  {
    var w := s.regionSize + 1;
    if region < s.numLarge {
      DivModUnique(region, step, w);
      Scale(region + 1, s.numLarge, w);
      Distribute(region, w);
    } else {
      DivModUnique(region - s.numLarge, step, s.regionSize);
    }
  }

  lemma RegionsEnd(s: Spread, count: nat, region: nat)
    requires Covers(s, count) && region < s.numRegions
    ensures RegionStart(s, region) + RegionWidth(s, region) <= s.first + count
  {
    var q, r, k := s.regionSize, s.numLarge, s.numRegions;
    assert r * (q + 1) == r * q + r by {
      Distribute(q, r);
      assert r * (q + 1) == (q + 1) * r;
      assert r * q == q * r;
    }
    if region < r {
      Scale(region + 1, r, q + 1);
      Distribute(region, q + 1);
      Scale(r, k, q);
    } else {
      Scale(region - r + 1, k - r, q);
      Distribute(region - r, q);
      DistributeSum(k - r, r, q);
    }
  }

  /** Every index hands out a part of the range, and the part tells the index. */
  lemma PartAtIndex(s: Spread, count: nat, i: nat)
    requires Covers(s, count) && i < count
    ensures s.first <= PartAt(s, i) < s.first + count
    ensures IndexOf(s, PartAt(s, i)) == i && RegionOf(s, PartAt(s, i)) == i % s.numRegions
  {
    StepInRegion(s, count, i);
    InRegion(s, i % s.numRegions, i / s.numRegions);
    RegionsEnd(s, count, i % s.numRegions);
    DivMod(i, s.numRegions);
  }

  /** Every part of the range is handed out, at its index. */
  lemma IndexOfPart(s: Spread, count: nat, part: nat)
    requires Covers(s, count) && s.first <= part < s.first + count
    ensures IndexOf(s, part) < count && PartAt(s, IndexOf(s, part)) == part
  {
    hide IndexOf;
    var region, step := RegionOf(s, part), StepOf(s, part);
    PartInSomeRegion(s, count, part);
    IndexParts(s, count, region, step);
    assert IndexOf(s, part) == step * s.numRegions + region by { IndexIs(s, part); }
  }

  lemma IndexIs(s: Spread, part: nat)
    requires s.regionSize >= 1 && part >= s.first
    ensures IndexOf(s, part) == StepOf(s, part) * s.numRegions + RegionOf(s, part)
  {
  }

  lemma PartInSomeRegion(s: Spread, count: nat, part: nat)
    requires Covers(s, count) && s.first <= part < s.first + count
    ensures RegionOf(s, part) < s.numRegions && StepOf(s, part) < RegionWidth(s, RegionOf(s, part))
    ensures part == RegionStart(s, RegionOf(s, part)) + StepOf(s, part)
  {
    WideRest(s, count);
    if part - s.first < s.numLarge * (s.regionSize + 1) {
      PartInLargeRegion(s, part);
    } else {
      PartInSmallRegion(s, part);
    }
  }

  lemma PartInLargeRegion(s: Spread, part: nat)
    requires s.regionSize >= 1 && s.first <= part && part - s.first < s.numLarge * (s.regionSize + 1)
    ensures RegionOf(s, part) < s.numLarge && StepOf(s, part) < s.regionSize + 1
    ensures part == RegionStart(s, RegionOf(s, part)) + StepOf(s, part)
  {
    Quotient(part - s.first, s.regionSize + 1, s.numLarge);
  }

  lemma PartInSmallRegion(s: Spread, part: nat)
    requires s.regionSize >= 1 && s.numLarge <= s.numRegions
    requires s.numLarge * (s.regionSize + 1) <= part - s.first
    requires part - s.first < s.numLarge * (s.regionSize + 1) + (s.numRegions - s.numLarge) * s.regionSize
    ensures s.numLarge <= RegionOf(s, part) < s.numRegions && StepOf(s, part) < s.regionSize
    ensures part == RegionStart(s, RegionOf(s, part)) + StepOf(s, part)
  {
    var rest := part - s.first - s.numLarge * (s.regionSize + 1);
    Quotient(rest, s.regionSize, s.numRegions - s.numLarge);
    var a := rest / s.regionSize;
    assert RegionOf(s, part) == s.numLarge + a;
    assert RegionStart(s, s.numLarge + a) == s.first + s.numLarge * (s.regionSize + 1) + a * s.regionSize;
  }

  lemma WideRest(s: Spread, count: nat)
    requires Covers(s, count)
    ensures count - s.numLarge * (s.regionSize + 1) == (s.numRegions - s.numLarge) * s.regionSize
  {
    var q, r, k := s.regionSize, s.numLarge, s.numRegions;
    DistributeSum(k - r, r, q);
    DistributeSum(q, 1, r);
  }

  lemma IndexParts(s: Spread, count: nat, region: nat, step: nat)
    requires Covers(s, count) && region < s.numRegions && step < RegionWidth(s, region)
    ensures var i := step * s.numRegions + region;
            i < count && i % s.numRegions == region && i / s.numRegions == step
  {
    var k, q := s.numRegions, s.regionSize;
    DivModUnique(step, region, k);
    assert k * q == q * k;
    if region < s.numLarge {
      Scale(step, q, k);
    } else {
      Scale(step + 1, q, k);
      Distribute(step, k);
    }
  }

  /** The spread is a permutation: different indices hand out different parts. */
  lemma NoPartTwice(s: Spread, count: nat, i: nat, j: nat)
    requires Covers(s, count) && i < count && j < count && i != j
    ensures PartAt(s, i) != PartAt(s, j)
  {
    PartAtIndex(s, count, i);
    PartAtIndex(s, count, j);
  }

  /** Any `numRegions` consecutive handouts come from different regions. */
  lemma RegionsRotate(s: Spread, count: nat, i: nat, j: nat)
    requires Covers(s, count) && i < j < count && j < i + s.numRegions
    ensures s.first <= PartAt(s, i) && s.first <= PartAt(s, j)
    ensures RegionOf(s, PartAt(s, i)) != RegionOf(s, PartAt(s, j))
  {
    PartAtIndex(s, count, i);
    PartAtIndex(s, count, j);
    RemaindersDiffer(i, j, s.numRegions);
  }
}
