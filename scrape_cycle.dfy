/** What a whole scraping cycle stores, and when the order in which Go's
    `range` visits the region maps shows in the result. */
module ScrapeCycleProperties {
  import opened CloudInfoTypes
  import opened ProductStore
  import opened ScrapeSpec
  import opened ScrapeProperties
  import opened ScrapeStepProperties

  /** The region listing of every service succeeds. */
  predicate ListingsSucceed(inf: Infoer, services: seq<Service>) {
    forall i :: 0 <= i < |services| ==> inf.regions(services[i].name).err.None?
  }

  /** The per-region chain succeeds for every listed region of every service. */
  predicate RegionsSucceed(inf: Infoer, services: seq<Service>) {
    forall i, r :: 0 <= i < |services| && r in inf.regions(services[i].name).value ==>
      RegionSucceeds(inf, services[i].name, r)
  }

  /** `t` holds the products, the images (when the provider has any) and the
      versions of region `r` of service `svc`. */
  predicate Stored(t: StoreState, p: string, inf: Infoer, svc: string, r: string) {
    var k := (p, svc, r);
    && k in t.vms && t.vms[k] == inf.products(svc, r).value
    && (inf.hasImages ==> k in t.images && t.images[k] == inf.serviceImages(svc, r).value)
    && k in t.versions && t.versions[k] == inf.versions(svc, r).value
  }

  lemma RegionsSucceedTail(inf: Infoer, services: seq<Service>)
    requires services != [] && RegionsSucceed(inf, services)
    ensures RegionsSucceed(inf, services[1..])
  {
    forall i, r | 0 <= i < |services[1..]| && r in inf.regions(services[1..][i].name).value
      ensures RegionSucceeds(inf, services[1..][i].name, r)
    {
      assert services[1..][i] == services[i + 1];
    }
  }

  lemma ValidOrdersTail(inf: Infoer, services: seq<Service>, orders: seq<seq<string>>)
    requires services != [] && ValidOrders(inf, services, orders)
    ensures ValidOrders(inf, services[1..], orders[1..])
  {
    forall i | 0 <= i < |orders[1..]|
      ensures IsEnumeration(orders[1..][i], inf.regions(services[1..][i].name).value.Keys)
    {
      assert orders[1..][i] == orders[i + 1] && services[1..][i] == services[i + 1];
    }
  }

  // ---------------------------------------------------------------------------
  // the visit order

  /** When every listed region succeeds, the region-info step gives the same
      store and error for any visit orders of the region maps. */
  lemma {:induction false} RegionInfoOrderIrrelevant(s: StoreState, p: string, inf: Infoer, services: seq<Service>,
                                                    o1: seq<seq<string>>, o2: seq<seq<string>>)
    requires ValidOrders(inf, services, o1) && ValidOrders(inf, services, o2)
    requires RegionsSucceed(inf, services)
    ensures ScrapeServiceRegionInfo(s, p, inf, services, o1) == ScrapeServiceRegionInfo(s, p, inf, services, o2)
    decreases |services|
  {
    if services != [] && inf.regions(services[0].name).err.None? {
      var svc := services[0].name;
      ScrapeRegionsOrderIrrelevant(s, p, inf, svc, inf.regions(svc).value.Keys, o1[0], o2[0]);
      var o := ScrapeRegions(s, p, inf, svc, o1[0]);
      if o.1.None? {
        ValidOrdersTail(inf, services, o1);
        ValidOrdersTail(inf, services, o2);
        RegionsSucceedTail(inf, services);
        RegionInfoOrderIrrelevant(o.0, p, inf, services[1..], o1[1..], o2[1..]);
      }
    }
  }

  /** A full cycle does not depend on the visit orders when every listed
      region succeeds. */
  lemma ScrapeOrderIrrelevant(s: StoreState, p: string, inf: Infoer, o1: seq<seq<string>>, o2: seq<seq<string>>,
                              stamp: string)
    requires ValidOrders(inf, inf.services.value, o1) && ValidOrders(inf, inf.services.value, o2)
    requires RegionsSucceed(inf, inf.services.value)
    ensures Scrape(s, p, inf, o1, stamp) == Scrape(s, p, inf, o2, stamp)
  {
    var services := inf.services.value;
    var a := ScrapeServiceAttributes(Initialize(s, p, inf), p, inf, services).0;
    RegionInfoOrderIrrelevant(a, p, inf, services, o1, o2);
  }

  /** Idempotence of a cycle whatever order each cycle visits the regions in,
      provided every listed region succeeds. */
  lemma ScrapeIdempotentAnyOrders(s: StoreState, p: string, inf: Infoer, o1: seq<seq<string>>, o2: seq<seq<string>>,
                                  stamp: string)
    requires ValidOrders(inf, inf.services.value, o1) && ValidOrders(inf, inf.services.value, o2)
    requires RegionsSucceed(inf, inf.services.value)
    ensures Scrape(Scrape(s, p, inf, o1, stamp), p, inf, o2, stamp) == Scrape(s, p, inf, o1, stamp)
  {
    ScrapeOrderIrrelevant(Scrape(s, p, inf, o1, stamp), p, inf, o2, o1, stamp);
    ScrapeIdempotent(s, p, inf, o1, stamp);
  }

  /** One service, "compute", with regions "A" and "B"; the products of "B"
      cannot be fetched. */
  function FailingRegionInfoer(): Infoer {
    Infoer(
      Response(map[], None),
      Response([Service("compute")], None),
      "cpu", "memory",
      (svc: string, attr: string) => Response([], None),
      (svc: string) => Response(map["A" := "a", "B" := "b"], None),
      (svc: string, r: string) => if r == "B" then Response([], Some(Error("unavailable"))) else Response([], None),
      false,
      (svc: string, r: string) => Response([], None),
      (svc: string, r: string) => Response([], None),
      false,
      (r: string) => Response(map[], None))
  }

  /** Visiting "B" first stops the region loop before anything is stored. */
  lemma FailingRegionFirst(x: StoreState)
    ensures ScrapeServiceRegionInfo(x, "p", FailingRegionInfoer(), [Service("compute")], [["B", "A"]]).0 == x
  {
    var inf := FailingRegionInfoer();
    assert inf.products("compute", "B").err.Some?;
    assert ScrapeRegions(x, "p", inf, "compute", ["B", "A"]).0 == x;
  }

  /** Visiting "A" first stores its products before "B" fails. */
  lemma SucceedingRegionFirst(x: StoreState)
    ensures ("p", "compute", "A") in ScrapeServiceRegionInfo(x, "p", FailingRegionInfoer(), [Service("compute")], [["A", "B"]]).0.vms
  {
    var inf := FailingRegionInfoer();
    assert inf.products("compute", "A").err.None?;
    var x1 := ScrapeRegion(x, "p", inf, "compute", "A").0;
    assert ("p", "compute", "A") in x1.vms;
    assert ["A", "B"][1..] == ["B"];
    assert inf.products("compute", "B").err.Some?;
    assert ScrapeRegions(x, "p", inf, "compute", ["A", "B"]).0 == x1;
  }

  /** Before the region-info step of a cycle, the VM entries are those of the
      store the cycle started from. */
  lemma CycleKeepsVmsBeforeRegions(s: StoreState, p: string, inf: Infoer)
    ensures ScrapeServiceAttributes(Initialize(s, p, inf), p, inf, inf.services.value).0.vms == s.vms
  {
    var i0 := Initialize(s, p, inf);
    ScrapeServiceAttributesPatch(i0, p, inf, inf.services.value);
    OverlayOutside(i0, ScrapeServiceAttributes(Empty, p, inf, inf.services.value).0, p, {AttributeCat});
  }

  lemma FailingRegionInfoerOrders()
    ensures var inf := FailingRegionInfoer();
      ValidOrders(inf, inf.services.value, [["B", "A"]]) && ValidOrders(inf, inf.services.value, [["A", "B"]])
  {
    var inf := FailingRegionInfoer();
    var ks := inf.regions("compute").value.Keys;
    assert ks == {"A", "B"};
    assert IsEnumeration(["B", "A"], ks);
    assert IsEnumeration(["A", "B"], ks);
  }

  /** A cycle that visits "B" first stores no VMs over an empty store. */
  lemma FailingOrderStoresNoVms(stamp: string)
    ensures Scrape(Empty, "p", FailingRegionInfoer(), [["B", "A"]], stamp).vms == map[]
  {
    var inf := FailingRegionInfoer();
    var a1 := ScrapeServiceAttributes(Initialize(Empty, "p", inf), "p", inf, inf.services.value).0;
    CycleKeepsVmsBeforeRegions(Empty, "p", inf);
    FailingRegionFirst(a1);
  }

  /** A cycle that visits "A" first stores the VMs of "A", over any store. */
  lemma SucceedingOrderStoresVms(s: StoreState, stamp: string)
    ensures ("p", "compute", "A") in Scrape(s, "p", FailingRegionInfoer(), [["A", "B"]], stamp).vms
  {
    var inf := FailingRegionInfoer();
    var a2 := ScrapeServiceAttributes(Initialize(s, "p", inf), "p", inf, inf.services.value).0;
    SucceedingRegionFirst(a2);
  }

  /** When a region fails, a cycle is not idempotent across visit orders: a
      first cycle that meets "B" first stores nothing for "A", and a second
      one that visits "A" first stores its products. */
  lemma ScrapeNotIdempotentAcrossOrders()
    ensures var inf := FailingRegionInfoer();
      && ValidOrders(inf, inf.services.value, [["B", "A"]])
      && ValidOrders(inf, inf.services.value, [["A", "B"]])
      && var once := Scrape(Empty, "p", inf, [["B", "A"]], "t");
         Scrape(once, "p", inf, [["A", "B"]], "t") != once
  {
    FailingRegionInfoerOrders();
    FailingOrderStoresNoVms("t");
    var once := Scrape(Empty, "p", FailingRegionInfoer(), [["B", "A"]], "t");
    SucceedingOrderStoresVms(once, "t");
  }

  // ---------------------------------------------------------------------------
  // a cycle in which every call succeeds

  lemma RegionWritesStores(s: StoreState, p: string, inf: Infoer, svc: string, rs: set<string>)
    ensures forall svc', r :: Stored(s, p, inf, svc', r) ==> Stored(RegionWrites(s, p, inf, svc, rs), p, inf, svc', r)
    ensures forall r :: r in rs ==> Stored(RegionWrites(s, p, inf, svc, rs), p, inf, svc, r)
  {
  }

  /** The region loop of a service whose regions all succeed is the closed
      form over its region keys. */
  lemma ServiceRegionsAllSucceed(s: StoreState, p: string, inf: Infoer, svc: string, order: seq<string>)
    requires IsEnumeration(order, inf.regions(svc).value.Keys)
    requires forall r :: r in inf.regions(svc).value ==> RegionSucceeds(inf, svc, r)
    ensures ScrapeRegions(s, p, inf, svc, order) == (RegionWrites(s, p, inf, svc, inf.regions(svc).value.Keys), None)
  {
    assert forall i :: 0 <= i < |order| ==> order[i] in inf.regions(svc).value;
    ScrapeRegionsAllSucceed(s, p, inf, svc, order);
    assert (set r | r in order) == inf.regions(svc).value.Keys;
  }

  /** One step of the service loop when the first service's listing and
      regions all succeed. */
  lemma RegionInfoStep(s: StoreState, p: string, inf: Infoer, services: seq<Service>, orders: seq<seq<string>>)
    requires services != [] && ValidOrders(inf, services, orders)
    requires ListingsSucceed(inf, services) && RegionsSucceed(inf, services)
    ensures var svc := services[0].name;
      ScrapeServiceRegionInfo(s, p, inf, services, orders)
      == ScrapeServiceRegionInfo(RegionWrites(s, p, inf, svc, inf.regions(svc).value.Keys), p, inf, services[1..], orders[1..])
  {
    var svc := services[0].name;
    assert inf.regions(svc).err.None?;
    assert forall r :: r in inf.regions(svc).value ==> RegionSucceeds(inf, svc, r);
    ServiceRegionsAllSucceed(s, p, inf, svc, orders[0]);
  }

  lemma ListingsSucceedTail(inf: Infoer, services: seq<Service>)
    requires services != [] && ListingsSucceed(inf, services)
    ensures ListingsSucceed(inf, services[1..])
  {
    forall i | 0 <= i < |services[1..]| ensures inf.regions(services[1..][i].name).err.None? {
      assert services[1..][i] == services[i + 1];
    }
  }

  /** When every listing and every region succeeds, the region-info step
      returns no error, keeps what was stored, and stores the products,
      images and versions of every region of every service. */
  lemma {:induction false} RegionInfoAllSucceed(s: StoreState, p: string, inf: Infoer, services: seq<Service>,
                                               orders: seq<seq<string>>)
    requires ValidOrders(inf, services, orders)
    requires ListingsSucceed(inf, services) && RegionsSucceed(inf, services)
    ensures ScrapeServiceRegionInfo(s, p, inf, services, orders).1 == None
    ensures forall svc, r :: Stored(s, p, inf, svc, r) ==> Stored(ScrapeServiceRegionInfo(s, p, inf, services, orders).0, p, inf, svc, r)
    ensures forall i, r :: 0 <= i < |services| && r in inf.regions(services[i].name).value ==>
              Stored(ScrapeServiceRegionInfo(s, p, inf, services, orders).0, p, inf, services[i].name, r)
    decreases |services|
  {
    if services != [] {
      var svc := services[0].name;
      var s1 := RegionWrites(s, p, inf, svc, inf.regions(svc).value.Keys);
      RegionInfoStep(s, p, inf, services, orders);
      RegionWritesStores(s, p, inf, svc, inf.regions(svc).value.Keys);
      ValidOrdersTail(inf, services, orders);
      RegionsSucceedTail(inf, services);
      ListingsSucceedTail(inf, services);
      RegionInfoAllSucceed(s1, p, inf, services[1..], orders[1..]);
      var t := ScrapeServiceRegionInfo(s, p, inf, services, orders).0;
      forall i, r | 0 <= i < |services| && r in inf.regions(services[i].name).value
        ensures Stored(t, p, inf, services[i].name, r)
      {
        if i > 0 {
          assert services[i] == services[1..][i - 1];
        }
      }
    }
  }

  /** Every `GetAttributeValues` call of the attribute step succeeds. */
  predicate AttributeCallsSucceed(inf: Infoer, services: seq<Service>) {
    var calls := AttributeCalls(inf, services);
    forall j :: 0 <= j < |calls| ==> inf.attributeValues(calls[j].0, calls[j].1).err.None?
  }

  /** When every attribute call succeeds, the attribute step stores every
      value and returns no error. */
  lemma AttributesAllSucceed(s: StoreState, p: string, inf: Infoer, services: seq<Service>)
    requires AttributeCallsSucceed(inf, services)
    ensures ScrapeServiceAttributes(s, p, inf, services)
         == (s.(attributes := s.attributes + CallWrites(p, inf, AttributeCalls(inf, services))), None)
  {
    AttributesStopAtFirstFailure(s, p, inf, services);
    var calls := AttributeCalls(inf, services);
    var k := FirstFailure(inf, calls);
    assert k == |calls|;
    assert calls[..k] == calls;
  }

  /** The region-info step leaves the attributes as they were. */
  lemma RegionInfoKeepsAttributes(s: StoreState, p: string, inf: Infoer, services: seq<Service>, orders: seq<seq<string>>)
    requires |orders| == |services|
    ensures ScrapeServiceRegionInfo(s, p, inf, services, orders).0.attributes == s.attributes
  {
    ScrapeServiceRegionInfoPatch(s, p, inf, services, orders);
    OverlayOutside(s, ScrapeServiceRegionInfo(Empty, p, inf, services, orders).0, p, RegionCats);
  }

  /** A full cycle in which every attribute call, every region listing and
      every per-region call succeeds stores the bulk prices, every attribute
      value, the products, images and versions of every region of every
      service, and the status stamp. */
  lemma ScrapeAllSucceed(s: StoreState, p: string, inf: Infoer, orders: seq<seq<string>>, stamp: string)
    requires ValidOrders(inf, inf.services.value, orders)
    requires ListingsSucceed(inf, inf.services.value) && RegionsSucceed(inf, inf.services.value)
    requires AttributeCallsSucceed(inf, inf.services.value)
    ensures Scrape(s, p, inf, orders, stamp).status == s.status[p := stamp]
    ensures Scrape(s, p, inf, orders, stamp).prices == s.prices + PriceWrites(p, inf.initialize.value)
    ensures Scrape(s, p, inf, orders, stamp).attributes
         == s.attributes + CallWrites(p, inf, AttributeCalls(inf, inf.services.value))
    ensures forall i, r :: 0 <= i < |inf.services.value| && r in inf.regions(inf.services.value[i].name).value ==>
              Stored(Scrape(s, p, inf, orders, stamp), p, inf, inf.services.value[i].name, r)
  {
    var services := inf.services.value;
    ScrapeStampsStatus(s, p, inf, orders, stamp);
    var i0 := Initialize(s, p, inf);
    AttributesAllSucceed(i0, p, inf, services);
    var a := ScrapeServiceAttributes(i0, p, inf, services).0;
    RegionInfoAllSucceed(a, p, inf, services, orders);
    RegionInfoKeepsAttributes(a, p, inf, services, orders);
    var r := ScrapeServiceRegionInfo(a, p, inf, services, orders).0;
    assert Scrape(s, p, inf, orders, stamp) == r.PutStatus(p, stamp);
  }
}
