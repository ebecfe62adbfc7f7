/** What one provider's scraping manager does to the store, step by step, as
    functions from the store's contents before a step to its contents after it,
    paired with the error the step returns. The methods of ScrapingManager are
    proved to do exactly what the function of the same name says; the lemmas
    here are what those functions, and so the scrapers, promise.

    Go's `range` over a map visits its keys in an unspecified order. Where the
    order can matter (the region loop returns early), the functions take the
    order as a parameter, and the lemmas hold for every order. */
module ScrapeSpec {
  import opened CloudInfoTypes
  import opened ProductStore

  /** The per-region call that failed. */
  datatype Link = GetProducts | GetServiceImages | GetVersions

  /** The errors a scraping step returns to its caller (which logs them). */
  datatype ScrapeError =
    | AttributeValuesFailed(service: string, attribute: string, cause: Error)
    | RegionsFailed(provider: string, service: string, cause: Error)
    | RegionFailed(link: Link, provider: string, service: string, region: string, cause: Error)

  /** The store after a step, and the error the step returned. */
  type Outcome = (StoreState, Option<ScrapeError>)

  // ---------------------------------------------------------------------------
  // initialize and the short-lived price refresh

  /** The price entries a price table gives provider `p`: the outer key is the
      region, the inner key the instance type. */
  function PriceWrites(p: string, table: PriceTable): (w: map<PriceKey, Price>)
    ensures forall k :: k in w <==> k.0 == p && k.1 in table && k.2 in table[k.1]
    ensures forall k :: k in w ==> w[k] == table[k.1][k.2]
  {
    var w := map r, t | r in table && t in table[r] :: (p, r, t) := table[r][t];
    assert forall k: PriceKey :: k.0 == p && k.1 in table && k.2 in table[k.1] ==> k == (p, k.1, k.2);
    w
  }

  /** The price entries of one region's prices. */
  function RegionPriceWrites(p: string, r: string, ap: map<string, Price>): (w: map<PriceKey, Price>)
    ensures forall k :: k in w <==> k.0 == p && k.1 == r && k.2 in ap
    ensures forall k :: k in w ==> w[k] == ap[k.2]
  {
    var w := map t | t in ap :: (p, r, t) := ap[t];
    assert forall k: PriceKey :: k.0 == p && k.1 == r && k.2 in ap ==> k == (p, r, k.2);
    w
  }

  /** `initialize`: every entry of the bulk snapshot is stored, even when the
      snapshot call also returned an error. */
  function Initialize(s: StoreState, p: string, inf: Infoer): StoreState {
    s.(prices := s.prices + PriceWrites(p, inf.initialize.value))
  }

  /** `scrapePricesInRegion`: the current prices of region `r` are stored, even
      when the call also returned an error. */
  function ScrapePricesInRegion(s: StoreState, p: string, inf: Infoer, r: string): StoreState {
    s.(prices := s.prices + RegionPriceWrites(p, r, inf.currentPrices(r).value))
  }

  /** The current prices of every region in `rs`, as a price table. */
  function CurrentPriceTable(inf: Infoer, rs: set<string>): PriceTable {
    map r | r in rs :: inf.currentPrices(r).value
  }

  /** The regions the short-lived refresh visits: the keys of whatever
      `GetRegions("compute")` returned. */
  function ComputeRegions(inf: Infoer): set<string> {
    inf.regions("compute").value.Keys
  }

  /** `scrapePricesInAllRegions`: one `scrapePricesInRegion` per compute region. */
  function ScrapePricesInAllRegions(s: StoreState, p: string, inf: Infoer): StoreState {
    s.(prices := s.prices + PriceWrites(p, CurrentPriceTable(inf, ComputeRegions(inf))))
  }

  /** The price entries of a table with one more region. */
  lemma PriceWritesInsert(p: string, table: PriceTable, r: string, ap: map<string, Price>)
    requires r !in table
    ensures PriceWrites(p, table[r := ap]) == PriceWrites(p, table) + RegionPriceWrites(p, r, ap)
  {
    var lhs := PriceWrites(p, table[r := ap]);
    var rhs := PriceWrites(p, table) + RegionPriceWrites(p, r, ap);
    var t' := table[r := ap];
    forall k | k in lhs ensures k in rhs && lhs[k] == rhs[k] {
      assert k.0 == p && k.1 in t' && k.2 in t'[k.1];
      if k.1 == r {
        assert k in RegionPriceWrites(p, r, ap);
      } else {
        assert t'[k.1] == table[k.1];
        assert k in PriceWrites(p, table);
      }
    }
    forall k | k in rhs ensures k in lhs {
      if k.1 == r {
        assert k.2 in ap;
      } else {
        assert k.1 in table && t'[k.1] == table[k.1];
      }
    }
    assert lhs == rhs;
  }

  // ---------------------------------------------------------------------------
  // scrapeServiceAttributes

  /** The attribute names asked for, in order, for every service. */
  function AttributeNames(inf: Infoer): seq<string> {
    [inf.cpuAttrName, inf.memoryAttrName]
  }

  /** The inner loop of `scrapeServiceAttributes`, over the attributes `attrs`
      of service `svc`. */
  function ServiceAttributes(s: StoreState, p: string, inf: Infoer, svc: string, attrs: seq<string>): Outcome
    decreases |attrs|
  {
    if attrs == [] then (s, None)
    else
      var resp := inf.attributeValues(svc, attrs[0]);
      if resp.err.Some? then (s, Some(AttributeValuesFailed(svc, attrs[0], resp.err.value)))
      else ServiceAttributes(s.PutAttribute(p, svc, attrs[0], resp.value), p, inf, svc, attrs[1..])
  }

  /** `scrapeServiceAttributes`: the first failing call ends the whole step. */
  function ScrapeServiceAttributes(s: StoreState, p: string, inf: Infoer, services: seq<Service>): Outcome
    decreases |services|
  {
    if services == [] then (s, None)
    else
      var o := ServiceAttributes(s, p, inf, services[0].name, AttributeNames(inf));
      if o.1.Some? then o else ScrapeServiceAttributes(o.0, p, inf, services[1..])
  }

  // ---------------------------------------------------------------------------
  // scrapeServiceRegionInfo

  function ScrapeServiceRegionProducts(s: StoreState, p: string, inf: Infoer, svc: string, r: string): Outcome {
    var resp := inf.products(svc, r);
    if resp.err.Some? then (s, Some(RegionFailed(GetProducts, p, svc, r, resp.err.value)))
    else (s.PutVm(p, svc, r, resp.value), None)
  }

  function ScrapeServiceRegionImages(s: StoreState, p: string, inf: Infoer, svc: string, r: string): Outcome {
    if !inf.hasImages then (s, None)
    else
      var resp := inf.serviceImages(svc, r);
      if resp.err.Some? then (s, Some(RegionFailed(GetServiceImages, p, svc, r, resp.err.value)))
      else (s.PutImage(p, svc, r, resp.value), None)
  }

  function ScrapeServiceRegionVersions(s: StoreState, p: string, inf: Infoer, svc: string, r: string): Outcome {
    var resp := inf.versions(svc, r);
    if resp.err.Some? then (s, Some(RegionFailed(GetVersions, p, svc, r, resp.err.value)))
    else (s.PutVersion(p, svc, r, resp.value), None)
  }

  /** The body of the region loop: products, then images, then versions; the
      first failing link ends the chain. */
  function ScrapeRegion(s: StoreState, p: string, inf: Infoer, svc: string, r: string): Outcome {
    var o1 := ScrapeServiceRegionProducts(s, p, inf, svc, r);
    if o1.1.Some? then o1
    else
      var o2 := ScrapeServiceRegionImages(o1.0, p, inf, svc, r);
      if o2.1.Some? then o2
      else ScrapeServiceRegionVersions(o2.0, p, inf, svc, r)
  }

  /** The region loop of one service, visiting the regions in `order`. */
  function ScrapeRegions(s: StoreState, p: string, inf: Infoer, svc: string, order: seq<string>): Outcome
    decreases |order|
  {
    if order == [] then (s, None)
    else
      var o := ScrapeRegion(s, p, inf, svc, order[0]);
      if o.1.Some? then o else ScrapeRegions(o.0, p, inf, svc, order[1..])
  }

  /** `orders[i]` is an order in which the regions of `services[i]` may be visited. */
  ghost predicate ValidOrders(inf: Infoer, services: seq<Service>, orders: seq<seq<string>>) {
    && |orders| == |services|
    && forall i :: 0 <= i < |orders| ==> IsEnumeration(orders[i], inf.regions(services[i].name).value.Keys)
  }

  /** `scrapeServiceRegionInfo`, visiting the regions of `services[i]` in `orders[i]`. */
  function ScrapeServiceRegionInfo(s: StoreState, p: string, inf: Infoer, services: seq<Service>,
                                   orders: seq<seq<string>>): Outcome
    requires |orders| == |services|
    decreases |services|
  {
    if services == [] then (s, None)
    else
      var resp := inf.regions(services[0].name);
      if resp.err.Some? then (s, Some(RegionsFailed(p, services[0].name, resp.err.value)))
      else
        var o := ScrapeRegions(s, p, inf, services[0].name, orders[0]);
        if o.1.Some? then o else ScrapeServiceRegionInfo(o.0, p, inf, services[1..], orders[1..])
  }

  // ---------------------------------------------------------------------------
  // the full cycle

  /** `updateStatus`, with the timestamp passed in. */
  function UpdateStatus(s: StoreState, p: string, stamp: string): StoreState {
    s.PutStatus(p, stamp)
  }

  /** `scrapeServiceInformation`: the services listed (whatever came back, even
      with an error), then attributes, then regions, and the status always;
      the errors of the two middle steps are only logged. */
  function ScrapeServiceInformation(s: StoreState, p: string, inf: Infoer, orders: seq<seq<string>>,
                                    stamp: string): StoreState
    requires |orders| == |inf.services.value|
  {
    var services := inf.services.value;
    var a := ScrapeServiceAttributes(s, p, inf, services);
    var r := ScrapeServiceRegionInfo(a.0, p, inf, services, orders);
    UpdateStatus(r.0, p, stamp)
  }

  /** `scrape`: initialize, then the service information. */
  function Scrape(s: StoreState, p: string, inf: Infoer, orders: seq<seq<string>>, stamp: string): StoreState
    requires |orders| == |inf.services.value|
  {
    ScrapeServiceInformation(Initialize(s, p, inf), p, inf, orders, stamp)
  }

  // ---------------------------------------------------------------------------
  // composition of the loops

  /** Some valid order for the regions of each of `services`. */
  ghost function OrdersFor(inf: Infoer, services: seq<Service>): (orders: seq<seq<string>>)
    ensures ValidOrders(inf, services, orders)
  {
    seq(|services|, i requires 0 <= i < |services| => AnyOrder(inf.regions(services[i].name).value.Keys))
  }

  lemma ValidOrdersAppend(inf: Infoer, a: seq<Service>, oa: seq<seq<string>>, b: seq<Service>, ob: seq<seq<string>>)
    requires ValidOrders(inf, a, oa) && ValidOrders(inf, b, ob)
    ensures ValidOrders(inf, a + b, oa + ob)
  {
    forall i | 0 <= i < |oa + ob|
      ensures IsEnumeration((oa + ob)[i], inf.regions((a + b)[i].name).value.Keys)
    {
      if i >= |oa| {
        assert (oa + ob)[i] == ob[i - |oa|] && (a + b)[i] == b[i - |a|];
      }
    }
  }

  /** The region loop over `a + b` is the loop over `a`, then, only if nothing
      failed, the loop over `b`. */
  lemma {:induction false} ScrapeRegionsAppend(s: StoreState, p: string, inf: Infoer, svc: string,
                                              a: seq<string>, b: seq<string>)
    ensures ScrapeRegions(s, p, inf, svc, a + b)
         == (var o := ScrapeRegions(s, p, inf, svc, a);
             if o.1.Some? then o else ScrapeRegions(o.0, p, inf, svc, b))
    decreases |a|
  {
    if a == [] {
      assert a + b == b;
    } else {
      assert (a + b)[0] == a[0] && (a + b)[1..] == a[1..] + b;
      var o := ScrapeRegion(s, p, inf, svc, a[0]);
      if o.1.None? {
        ScrapeRegionsAppend(o.0, p, inf, svc, a[1..], b);
      }
    }
  }

  /** The service loop over `a + b` is the loop over `a`, then, only if nothing
      failed, the loop over `b`. */
  lemma {:induction false} ScrapeServiceRegionInfoAppend(s: StoreState, p: string, inf: Infoer,
                                                        a: seq<Service>, oa: seq<seq<string>>,
                                                        b: seq<Service>, ob: seq<seq<string>>)
    requires |oa| == |a| && |ob| == |b|
    ensures ScrapeServiceRegionInfo(s, p, inf, a + b, oa + ob)
         == (var o := ScrapeServiceRegionInfo(s, p, inf, a, oa);
             if o.1.Some? then o else ScrapeServiceRegionInfo(o.0, p, inf, b, ob))
    decreases |a|
  {
    if a == [] {
      assert a + b == b && oa + ob == ob;
    } else {
      assert (a + b)[0] == a[0] && (a + b)[1..] == a[1..] + b;
      assert (oa + ob)[0] == oa[0] && (oa + ob)[1..] == oa[1..] + ob;
      if inf.regions(a[0].name).err.None? {
        var o := ScrapeRegions(s, p, inf, a[0].name, oa[0]);
        if o.1.None? {
          ScrapeServiceRegionInfoAppend(o.0, p, inf, a[1..], oa[1..], b, ob);
        }
      }
    }
  }
}
