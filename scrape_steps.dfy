/** Closed forms of the scraping steps: which entries each step writes, where
    it stops, and that the order in which Go's `range` visits a map does not
    matter whenever nothing fails. */
module ScrapeStepProperties {
  import opened CloudInfoTypes
  import opened ProductStore
  import opened ScrapeSpec

  // ---------------------------------------------------------------------------
  // the attribute step

  /** The `GetAttributeValues` calls made for service `svc`, in order. */
  function ServiceCalls(svc: string, attrs: seq<string>): (calls: seq<(string, string)>)
    ensures |calls| == |attrs|
    ensures forall i :: 0 <= i < |attrs| ==> calls[i] == (svc, attrs[i])
  {
    seq(|attrs|, i requires 0 <= i < |attrs| => (svc, attrs[i]))
  }

  /** Every `GetAttributeValues` call of the attribute step, in order, as
      made when none fails: CPU then memory for each service. */
  function AttributeCalls(inf: Infoer, services: seq<Service>): seq<(string, string)>
    decreases |services|
  {
    if services == [] then []
    else ServiceCalls(services[0].name, AttributeNames(inf)) + AttributeCalls(inf, services[1..])
  }

  /** A flat loop over `calls` that stops at the first failing call: an
      independent reference for the nested loops of the attribute step. */
  function RunCalls(s: StoreState, p: string, inf: Infoer, calls: seq<(string, string)>): Outcome
    decreases |calls|
  {
    if calls == [] then (s, None)
    else
      var resp := inf.attributeValues(calls[0].0, calls[0].1);
      if resp.err.Some? then (s, Some(AttributeValuesFailed(calls[0].0, calls[0].1, resp.err.value)))
      else RunCalls(s.PutAttribute(p, calls[0].0, calls[0].1, resp.value), p, inf, calls[1..])
  }

  /** The attribute entries that `calls` write, later calls overriding earlier ones. */
  function CallWrites(p: string, inf: Infoer, calls: seq<(string, string)>): map<AttrKey, AttrValues>
    decreases |calls|
  {
    if calls == [] then map[]
    else map[(p, calls[0].0, calls[0].1) := inf.attributeValues(calls[0].0, calls[0].1).value]
         + CallWrites(p, inf, calls[1..])
  }

  /** The index of the first failing call, or `|calls|` when none fails. */
  function FirstFailure(inf: Infoer, calls: seq<(string, string)>): (k: nat)
    ensures k <= |calls|
    ensures forall j :: 0 <= j < k ==> inf.attributeValues(calls[j].0, calls[j].1).err.None?
    ensures k < |calls| ==> inf.attributeValues(calls[k].0, calls[k].1).err.Some?
    decreases |calls|
  {
    if calls == [] then 0
    else if inf.attributeValues(calls[0].0, calls[0].1).err.Some? then 0
    else 1 + FirstFailure(inf, calls[1..])
  }

  lemma {:induction false} RunCallsAppend(s: StoreState, p: string, inf: Infoer,
                                         a: seq<(string, string)>, b: seq<(string, string)>)
    ensures RunCalls(s, p, inf, a + b)
         == (var o := RunCalls(s, p, inf, a); if o.1.Some? then o else RunCalls(o.0, p, inf, b))
    decreases |a|
  {
    if a == [] {
      assert a + b == b;
    } else {
      assert (a + b)[0] == a[0] && (a + b)[1..] == a[1..] + b;
      var resp := inf.attributeValues(a[0].0, a[0].1);
      if resp.err.None? {
        RunCallsAppend(s.PutAttribute(p, a[0].0, a[0].1, resp.value), p, inf, a[1..], b);
      }
    }
  }

  lemma {:induction false} ServiceAttributesRunsCalls(s: StoreState, p: string, inf: Infoer, svc: string, attrs: seq<string>)
    ensures ServiceAttributes(s, p, inf, svc, attrs) == RunCalls(s, p, inf, ServiceCalls(svc, attrs))
    decreases |attrs|
  {
    if attrs != [] {
      assert ServiceCalls(svc, attrs)[1..] == ServiceCalls(svc, attrs[1..]);
      var resp := inf.attributeValues(svc, attrs[0]);
      if resp.err.None? {
        ServiceAttributesRunsCalls(s.PutAttribute(p, svc, attrs[0], resp.value), p, inf, svc, attrs[1..]);
      }
    }
  }

  /** The nested loops of the attribute step are the flat loop over its calls. */
  lemma {:induction false} ScrapeServiceAttributesRunsCalls(s: StoreState, p: string, inf: Infoer, services: seq<Service>)
    ensures ScrapeServiceAttributes(s, p, inf, services) == RunCalls(s, p, inf, AttributeCalls(inf, services))
    decreases |services|
  {
    if services != [] {
      var head := ServiceCalls(services[0].name, AttributeNames(inf));
      ServiceAttributesRunsCalls(s, p, inf, services[0].name, AttributeNames(inf));
      RunCallsAppend(s, p, inf, head, AttributeCalls(inf, services[1..]));
      var o := RunCalls(s, p, inf, head);
      if o.1.None? {
        ScrapeServiceAttributesRunsCalls(o.0, p, inf, services[1..]);
      }
    }
  }

  /** The flat loop stores the values of the calls before the first failure,
      and reports that failure; without one it stores every value. */
  lemma {:induction false} RunCallsStopsAtFirstFailure(s: StoreState, p: string, inf: Infoer, calls: seq<(string, string)>)
    ensures var k := FirstFailure(inf, calls);
      RunCalls(s, p, inf, calls)
      == (s.(attributes := s.attributes + CallWrites(p, inf, calls[..k])),
          if k == |calls| then None
          else Some(AttributeValuesFailed(calls[k].0, calls[k].1, inf.attributeValues(calls[k].0, calls[k].1).err.value)))
    decreases |calls|
  {
    var k := FirstFailure(inf, calls);
    if calls == [] || k == 0 {
      assert calls[..k] == [];
      MapUnionEmpty(s.attributes);
    } else {
      var c := calls[0];
      var v := inf.attributeValues(c.0, c.1).value;
      var s1 := s.PutAttribute(p, c.0, c.1, v);
      RunCallsStopsAtFirstFailure(s1, p, inf, calls[1..]);
      assert calls[1..][..k - 1] == calls[..k][1..] && calls[..k][0] == c;
      var rest := CallWrites(p, inf, calls[1..][..k - 1]);
      MapUpdateIsUnion(s.attributes, (p, c.0, c.1), v);
      MapUnionAssociative(s.attributes, map[(p, c.0, c.1) := v], rest);
    }
  }

  /** `scrapeServiceAttributes` visits the services in order, CPU then memory
      for each; the first failing call ends the step with that call's error,
      and exactly the values fetched before it stay stored. */
  lemma AttributesStopAtFirstFailure(s: StoreState, p: string, inf: Infoer, services: seq<Service>)
    ensures var calls := AttributeCalls(inf, services);
      var k := FirstFailure(inf, calls);
      ScrapeServiceAttributes(s, p, inf, services)
      == (s.(attributes := s.attributes + CallWrites(p, inf, calls[..k])),
          if k == |calls| then None
          else Some(AttributeValuesFailed(calls[k].0, calls[k].1, inf.attributeValues(calls[k].0, calls[k].1).err.value)))
  {
    ScrapeServiceAttributesRunsCalls(s, p, inf, services);
    RunCallsStopsAtFirstFailure(s, p, inf, AttributeCalls(inf, services));
  }

  // ---------------------------------------------------------------------------
  // the region loop of one service

  /** Every link of the per-region chain succeeds for region `r`. */
  predicate RegionSucceeds(inf: Infoer, svc: string, r: string) {
    && inf.products(svc, r).err.None?
    && (inf.hasImages ==> inf.serviceImages(svc, r).err.None?)
    && inf.versions(svc, r).err.None?
  }

  function ProductWrites(p: string, inf: Infoer, svc: string, rs: set<string>): (w: map<RegionalKey, seq<VmInfo>>)
    ensures forall k :: k in w <==> k.0 == p && k.1 == svc && k.2 in rs
    ensures forall k :: k in w ==> w[k] == inf.products(svc, k.2).value
  {
    var w := map r | r in rs :: (p, svc, r) := inf.products(svc, r).value;
    assert forall k: RegionalKey :: k.0 == p && k.1 == svc && k.2 in rs ==> k == (p, svc, k.2);
    w
  }

  function ImageWrites(p: string, inf: Infoer, svc: string, rs: set<string>): (w: map<RegionalKey, seq<Image>>)
    ensures forall k :: k in w <==> k.0 == p && k.1 == svc && k.2 in rs
    ensures forall k :: k in w ==> w[k] == inf.serviceImages(svc, k.2).value
  {
    var w := map r | r in rs :: (p, svc, r) := inf.serviceImages(svc, r).value;
    assert forall k: RegionalKey :: k.0 == p && k.1 == svc && k.2 in rs ==> k == (p, svc, k.2);
    w
  }

  function VersionWrites(p: string, inf: Infoer, svc: string, rs: set<string>): (w: map<RegionalKey, seq<string>>)
    ensures forall k :: k in w <==> k.0 == p && k.1 == svc && k.2 in rs
    ensures forall k :: k in w ==> w[k] == inf.versions(svc, k.2).value
  {
    var w := map r | r in rs :: (p, svc, r) := inf.versions(svc, r).value;
    assert forall k: RegionalKey :: k.0 == p && k.1 == svc && k.2 in rs ==> k == (p, svc, k.2);
    w
  }

  /** The store after the chain succeeded for every region of `rs`, in any
      order: products, images (if the provider has any) and versions of
      each region. */
  function RegionWrites(s: StoreState, p: string, inf: Infoer, svc: string, rs: set<string>): StoreState {
    s.(vms := s.vms + ProductWrites(p, inf, svc, rs),
       images := if inf.hasImages then s.images + ImageWrites(p, inf, svc, rs) else s.images,
       versions := s.versions + VersionWrites(p, inf, svc, rs))
  }

  /** Writing `k0` and then `w` is writing `w2`, which is `w` with `k0` added. */
  lemma UpdateThenUnion<K, V>(m: map<K, V>, k0: K, v: V, w: map<K, V>, w2: map<K, V>)
    requires forall k :: k in w2 <==> k == k0 || k in w
    requires k0 in w2 && w2[k0] == (if k0 in w then w[k0] else v)
    requires forall k :: k in w ==> w2[k] == w[k]
    ensures m[k0 := v] + w == m + w2
  {
    var lhs := m[k0 := v] + w;
    var rhs := m + w2;
    assert forall k :: k in lhs <==> k in rhs;
    forall k | k in lhs ensures lhs[k] == rhs[k] {
    }
  }

  /** One more region for the closed form of the region loop. */
  lemma RegionWritesCons(s: StoreState, p: string, inf: Infoer, svc: string, r: string, rs: set<string>)
    ensures var k := (p, svc, r);
      var s1 := s.(vms := s.vms[k := inf.products(svc, r).value],
                   images := if inf.hasImages then s.images[k := inf.serviceImages(svc, r).value] else s.images,
                   versions := s.versions[k := inf.versions(svc, r).value]);
      RegionWrites(s1, p, inf, svc, rs) == RegionWrites(s, p, inf, svc, {r} + rs)
  {
    var k := (p, svc, r);
    UpdateThenUnion(s.vms, k, inf.products(svc, r).value, ProductWrites(p, inf, svc, rs), ProductWrites(p, inf, svc, {r} + rs));
    UpdateThenUnion(s.images, k, inf.serviceImages(svc, r).value, ImageWrites(p, inf, svc, rs), ImageWrites(p, inf, svc, {r} + rs));
    UpdateThenUnion(s.versions, k, inf.versions(svc, r).value, VersionWrites(p, inf, svc, rs), VersionWrites(p, inf, svc, {r} + rs));
  }

  /** The chain for one region fails exactly when one of its links fails,
      and otherwise stores the region's products, images and versions. */
  lemma ScrapeRegionSucceeds(s: StoreState, p: string, inf: Infoer, svc: string, r: string)
    ensures ScrapeRegion(s, p, inf, svc, r).1.None? <==> RegionSucceeds(inf, svc, r)
    ensures RegionSucceeds(inf, svc, r) ==> ScrapeRegion(s, p, inf, svc, r).0 == RegionWrites(s, p, inf, svc, {r})
  {
    if RegionSucceeds(inf, svc, r) {
      RegionWritesCons(s, p, inf, svc, r, {});
      RegionWritesNone(ScrapeRegion(s, p, inf, svc, r).0, p, inf, svc);
      assert {r} + {} == {r};
    }
  }

  lemma RegionWritesNone(s: StoreState, p: string, inf: Infoer, svc: string)
    ensures RegionWrites(s, p, inf, svc, {}) == s
  {
    assert ProductWrites(p, inf, svc, {}) == map[];
    assert ImageWrites(p, inf, svc, {}) == map[];
    assert VersionWrites(p, inf, svc, {}) == map[];
    MapUnionEmpty(s.vms);
    MapUnionEmpty(s.images);
    MapUnionEmpty(s.versions);
  }

  /** When the chain succeeds for every region, the region loop stores the
      products, images and versions of every region, and the order of the
      visit does not show in the result. */
  lemma {:induction false} ScrapeRegionsAllSucceed(s: StoreState, p: string, inf: Infoer, svc: string, order: seq<string>)
    requires forall i :: 0 <= i < |order| ==> RegionSucceeds(inf, svc, order[i])
    ensures ScrapeRegions(s, p, inf, svc, order) == (RegionWrites(s, p, inf, svc, set r | r in order), None)
    decreases |order|
  {
    if order == [] {
      assert (set r | r in order) == {};
      RegionWritesNone(s, p, inf, svc);
    } else {
      var r := order[0];
      var rest := set x | x in order[1..];
      assert (set x | x in order) == {r} + rest;
      ScrapeRegionSucceeds(s, p, inf, svc, r);
      var s1 := ScrapeRegion(s, p, inf, svc, r).0;
      ScrapeRegionsAllSucceed(s1, p, inf, svc, order[1..]);
      RegionWritesCons(s, p, inf, svc, r, rest);
      RegionWritesNone(s1, p, inf, svc);
    }
  }

  /** Any two visiting orders of the same regions give the same store when
      every region succeeds. */
  lemma ScrapeRegionsOrderIrrelevant(s: StoreState, p: string, inf: Infoer, svc: string,
                                     ks: set<string>, o1: seq<string>, o2: seq<string>)
    requires IsEnumeration(o1, ks) && IsEnumeration(o2, ks)
    requires forall r :: r in ks ==> RegionSucceeds(inf, svc, r)
    ensures ScrapeRegions(s, p, inf, svc, o1) == ScrapeRegions(s, p, inf, svc, o2)
  {
    ScrapeRegionsAllSucceed(s, p, inf, svc, o1);
    ScrapeRegionsAllSucceed(s, p, inf, svc, o2);
    assert (set r | r in o1) == ks == (set r | r in o2);
  }

  /** The region loop fails exactly when the chain fails for one of the
      regions visited; then the regions before the first failing one are
      fully stored, the failing one keeps the links that succeeded, and no
      later region is visited. */
  lemma ScrapeRegionsFirstFailure(s: StoreState, p: string, inf: Infoer, svc: string, order: seq<string>, k: nat)
    requires k < |order| && !RegionSucceeds(inf, svc, order[k])
    requires forall i :: 0 <= i < k ==> RegionSucceeds(inf, svc, order[i])
    ensures ScrapeRegions(s, p, inf, svc, order)
         == ScrapeRegion(RegionWrites(s, p, inf, svc, set r | r in order[..k]), p, inf, svc, order[k])
    ensures ScrapeRegions(s, p, inf, svc, order).1.Some?
  {
    assert order == order[..k] + order[k..];
    ScrapeRegionsAppend(s, p, inf, svc, order[..k], order[k..]);
    ScrapeRegionsAllSucceed(s, p, inf, svc, order[..k]);
    var mid := RegionWrites(s, p, inf, svc, set r | r in order[..k]);
    ScrapeRegionSucceeds(mid, p, inf, svc, order[k]);
    assert order[k..][0] == order[k];
  }

  // ---------------------------------------------------------------------------
  // the service loop of scrapeServiceRegionInfo

  /** A failure to list the regions of `services[i]` ends the step: the store
      holds exactly what the services before it wrote, so nothing is written
      for that service or any later one. */
  lemma RegionListingFailureStops(s: StoreState, p: string, inf: Infoer, services: seq<Service>,
                                  orders: seq<seq<string>>, i: nat)
    requires |orders| == |services| && i < |services|
    requires inf.regions(services[i].name).err.Some?
    requires ScrapeServiceRegionInfo(s, p, inf, services[..i], orders[..i]).1.None?
    ensures ScrapeServiceRegionInfo(s, p, inf, services, orders)
         == (ScrapeServiceRegionInfo(s, p, inf, services[..i], orders[..i]).0,
             Some(RegionsFailed(p, services[i].name, inf.regions(services[i].name).err.value)))
  {
    assert services == services[..i] + services[i..];
    assert orders == orders[..i] + orders[i..];
    ScrapeServiceRegionInfoAppend(s, p, inf, services[..i], orders[..i], services[i..], orders[i..]);
    assert services[i..][0] == services[i];
  }

  // ---------------------------------------------------------------------------
  // the short-lived price refresh

  /** `scrapePricesInRegion` run for the regions of `order`, one after the other. */
  function PricesInRegions(s: StoreState, p: string, inf: Infoer, order: seq<string>): StoreState
    decreases |order|
  {
    if order == [] then s
    else PricesInRegions(ScrapePricesInRegion(s, p, inf, order[0]), p, inf, order[1..])
  }

  /** One more region's prices, written before the others. */
  lemma PricesConsRegion(m: map<PriceKey, Price>, p: string, inf: Infoer, r: string, rest: set<string>)
    requires r !in rest
    ensures m + RegionPriceWrites(p, r, inf.currentPrices(r).value) + PriceWrites(p, CurrentPriceTable(inf, rest))
         == m + PriceWrites(p, CurrentPriceTable(inf, {r} + rest))
  {
    var ap := inf.currentPrices(r).value;
    var t := CurrentPriceTable(inf, rest);
    assert t[r := ap] == CurrentPriceTable(inf, {r} + rest);
    PriceWritesInsert(p, t, r, ap);
    MapUnionCommutes(m, RegionPriceWrites(p, r, ap), PriceWrites(p, t));
    MapUnionAssociative(m, PriceWrites(p, t), RegionPriceWrites(p, r, ap));
  }

  lemma {:induction false} PricesInRegionsWrites(s: StoreState, p: string, inf: Infoer, order: seq<string>, ks: set<string>)
    requires IsEnumeration(order, ks)
    ensures PricesInRegions(s, p, inf, order) == s.(prices := s.prices + PriceWrites(p, CurrentPriceTable(inf, ks)))
    decreases |order|
  {
    if order == [] {
      assert ks == {};
      assert CurrentPriceTable(inf, ks) == map[];
      MapUnionEmpty(s.prices);
    } else {
      var r := order[0];
      EnumerationTail(order, ks);
      var s1 := ScrapePricesInRegion(s, p, inf, r);
      PricesInRegionsWrites(s1, p, inf, order[1..], ks - {r});
      PricesConsRegion(s.prices, p, inf, r, ks - {r});
      assert {r} + (ks - {r}) == ks;
    }
  }

  /** The short-lived refresh is the per-region refresh run for every region
      `GetRegions("compute")` returned, in whatever order: the region tasks
      the Go code runs concurrently write disjoint keys, and a region whose
      prices could not be fetched does not keep the others from being stored. */
  lemma AllRegionsAnyOrder(s: StoreState, p: string, inf: Infoer, order: seq<string>)
    requires IsEnumeration(order, ComputeRegions(inf))
    ensures PricesInRegions(s, p, inf, order) == ScrapePricesInAllRegions(s, p, inf)
  {
    PricesInRegionsWrites(s, p, inf, order, ComputeRegions(inf));
  }

  /** The short-lived refresh writes only prices, only under `p`, and an
      entry for every instance type of every compute region. */
  lemma AllRegionsWrites(s: StoreState, p: string, inf: Infoer)
    ensures var t := ScrapePricesInAllRegions(s, p, inf);
      && t == s.(prices := t.prices)
      && Without(t, p) == Without(s, p)
      && (forall k :: k in t.prices <==>
            k in s.prices || (k.0 == p && k.1 in ComputeRegions(inf) && k.2 in inf.currentPrices(k.1).value))
      && (forall r, it :: r in ComputeRegions(inf) && it in inf.currentPrices(r).value ==>
            t.prices[(p, r, it)] == inf.currentPrices(r).value[it])
  {
    var w := Empty.(prices := PriceWrites(p, CurrentPriceTable(inf, ComputeRegions(inf))));
    OverlayEmpty(s);
    assert ScrapePricesInAllRegions(s, p, inf) == Overlay(s, w);
    OverlayKeepsOthers(s, w, p);
  }
}
