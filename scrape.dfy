/** The scraping manager of one provider and the driver that owns one manager
    per provider. Each manager method writes the shared store step by step, as
    the Go code does, and is proved to leave it exactly as the function of the
    same name in ScrapeSpec says. */
module Scrape {
  import opened CloudInfoTypes
  import opened ProductStore
  import Spec = ScrapeSpec

  /** The price entries of `ap` added for one more key `t` of region `r`. */
  lemma RegionPriceWritesStep(p: string, r: string, ap: map<string, Price>, todo: set<string>, t: string)
    requires todo <= ap.Keys && t in todo
    ensures Spec.RegionPriceWrites(p, r, ap - todo)[(p, r, t) := ap[t]]
         == Spec.RegionPriceWrites(p, r, ap - (todo - {t}))
  {
    assert Spec.RegionPriceWrites(p, r, ap - todo)[(p, r, t) := ap[t]]
        == Spec.RegionPriceWrites(p, r, ap - (todo - {t}));
  }

  /** One more region of `scrapePricesInAllRegions`. */
  lemma AllRegionsStep(p: string, inf: Infoer, prices: map<PriceKey, Price>, ks: set<string>, todo: set<string>, r: string)
    requires r in todo && todo <= ks
    ensures prices + Spec.PriceWrites(p, Spec.CurrentPriceTable(inf, ks - todo))
              + Spec.RegionPriceWrites(p, r, inf.currentPrices(r).value)
         == prices + Spec.PriceWrites(p, Spec.CurrentPriceTable(inf, ks - (todo - {r})))
  {
    var table := Spec.CurrentPriceTable(inf, ks - todo);
    var ap := inf.currentPrices(r).value;
    assert table[r := ap] == Spec.CurrentPriceTable(inf, ks - (todo - {r}));
    Spec.PriceWritesInsert(p, table, r, ap);
    MapUnionAssociative(prices, Spec.PriceWrites(p, table), Spec.RegionPriceWrites(p, r, ap));
  }

  lemma TableStep<V>(m: map<string, V>, todo: set<string>, k: string)
    requires k in todo && k in m
    ensures k !in m - todo
    ensures (m - todo)[k := m[k]] == m - (todo - {k})
  {
    assert (m - todo)[k := m[k]] == m - (todo - {k});
  }

  class ScrapingManager {
    const provider: string
    const infoer: Infoer
    const store: CloudInfoStore

    constructor (provider: string, infoer: Infoer, store: CloudInfoStore)
      ensures this.provider == provider && this.infoer == infoer && this.store == store
    {
      this.provider := provider;
      this.infoer := infoer;
      this.store := store;
    }

    /** The loop `for instType, p := range ap { StorePrice(provider, region, instType, p) }`
        shared by `initialize` and `scrapePricesInRegion`. */
    method StoreRegionPrices(region: string, ap: map<string, Price>)
      modifies store
      ensures store.Snapshot()
           == old(store.Snapshot()).(prices := old(store.prices) + Spec.RegionPriceWrites(provider, region, ap))
    {
      var todo := ap.Keys;
      while todo != {}
        invariant todo <= ap.Keys
        invariant store.Snapshot() == old(store.Snapshot()).(prices := store.prices)
        invariant store.prices == old(store.prices) + Spec.RegionPriceWrites(provider, region, ap - todo)
        decreases todo
      {
        var instType :| instType in todo;
        store.StorePrice(provider, region, instType, ap[instType]);
        MapUnionUpdate(old(store.prices), Spec.RegionPriceWrites(provider, region, ap - todo),
                       (provider, region, instType), ap[instType]);
        RegionPriceWritesStep(provider, region, ap, todo, instType);
        todo := todo - {instType};
      }
      assert ap - todo == ap;
    }

    method Initialize()
      modifies store
      ensures store.Snapshot() == Spec.Initialize(old(store.Snapshot()), provider, infoer)
    {
      // an error is only logged: the prices returned with it are stored all the same
      var prices := infoer.initialize.value;
      var todo := prices.Keys;
      while todo != {}
        invariant todo <= prices.Keys
        invariant store.Snapshot() == old(store.Snapshot()).(prices := store.prices)
        invariant store.prices == old(store.prices) + Spec.PriceWrites(provider, prices - todo)
        decreases todo
      {
        var region :| region in todo;
        ghost var done := Spec.PriceWrites(provider, prices - todo);
        ghost var added := Spec.RegionPriceWrites(provider, region, prices[region]);
        StoreRegionPrices(region, prices[region]);
        assert store.prices == (old(store.prices) + done) + added;
        TableStep(prices, todo, region);
        Spec.PriceWritesInsert(provider, prices - todo, region, prices[region]);
        MapUnionAssociative(old(store.prices), done, added);
        todo := todo - {region};
      }
      assert prices - todo == prices;
    }

    method ScrapeServiceAttributes(services: seq<Service>) returns (err: Option<Spec.ScrapeError>)
      modifies store
      ensures (store.Snapshot(), err) == Spec.ScrapeServiceAttributes(old(store.Snapshot()), provider, infoer, services)
    {
      var i := 0;
      while i < |services|
        invariant 0 <= i <= |services|
        invariant Spec.ScrapeServiceAttributes(old(store.Snapshot()), provider, infoer, services)
               == Spec.ScrapeServiceAttributes(store.Snapshot(), provider, infoer, services[i..])
      {
        var service := services[i];
        var attrs := [infoer.cpuAttrName, infoer.memoryAttrName];
        var j := 0;
        while j < |attrs|
          invariant 0 <= j <= |attrs|
          invariant Spec.ScrapeServiceAttributes(old(store.Snapshot()), provider, infoer, services)
                 == (var o := Spec.ServiceAttributes(store.Snapshot(), provider, infoer, service.name, attrs[j..]);
                     if o.1.Some? then o else Spec.ScrapeServiceAttributes(o.0, provider, infoer, services[i + 1..]))
        {
          var attrVals := infoer.attributeValues(service.name, attrs[j]);
          if attrVals.err.Some? {
            return Some(Spec.AttributeValuesFailed(service.name, attrs[j], attrVals.err.value));
          }
          store.StoreAttribute(provider, service.name, attrs[j], attrVals.value);
          j := j + 1;
        }
        i := i + 1;
      }
      return None;
    }

    method ScrapeServiceRegionProducts(service: Service, regionId: string) returns (err: Option<Spec.ScrapeError>)
      modifies store
      ensures (store.Snapshot(), err)
           == Spec.ScrapeServiceRegionProducts(old(store.Snapshot()), provider, infoer, service.name, regionId)
    {
      var values := infoer.products(service.name, regionId);
      if values.err.Some? {
        return Some(Spec.RegionFailed(Spec.GetProducts, provider, service.name, regionId, values.err.value));
      }
      store.StoreVm(provider, service.name, regionId, values.value);
      return None;
    }

    method ScrapeServiceRegionImages(service: Service, regionId: string) returns (err: Option<Spec.ScrapeError>)
      modifies store
      ensures (store.Snapshot(), err)
           == Spec.ScrapeServiceRegionImages(old(store.Snapshot()), provider, infoer, service.name, regionId)
    {
      if infoer.hasImages {
        var images := infoer.serviceImages(service.name, regionId);
        if images.err.Some? {
          return Some(Spec.RegionFailed(Spec.GetServiceImages, provider, service.name, regionId, images.err.value));
        }
        store.StoreImage(provider, service.name, regionId, images.value);
      }
      return None;
    }

    method ScrapeServiceRegionVersions(service: Service, regionId: string) returns (err: Option<Spec.ScrapeError>)
      modifies store
      ensures (store.Snapshot(), err)
           == Spec.ScrapeServiceRegionVersions(old(store.Snapshot()), provider, infoer, service.name, regionId)
    {
      var versions := infoer.versions(service.name, regionId);
      if versions.err.Some? {
        return Some(Spec.RegionFailed(Spec.GetVersions, provider, service.name, regionId, versions.err.value));
      }
      store.StoreVersion(provider, service.name, regionId, versions.value);
      return None;
    }

    /** The body of the region loop of `scrapeServiceRegionInfo`. */
    method ScrapeRegion(service: Service, regionId: string) returns (err: Option<Spec.ScrapeError>)
      modifies store
      ensures (store.Snapshot(), err) == Spec.ScrapeRegion(old(store.Snapshot()), provider, infoer, service.name, regionId)
    {
      err := ScrapeServiceRegionProducts(service, regionId);
      if err.Some? {
        return;
      }
      err := ScrapeServiceRegionImages(service, regionId);
      if err.Some? {
        return;
      }
      err := ScrapeServiceRegionVersions(service, regionId);
    }

    /** `scrapeServiceRegionInfo`. The ghost `orders` records, per service, the
        order in which its regions were visited (completed arbitrarily for the
        regions and services a failure left unvisited). */
    method ScrapeServiceRegionInfo(services: seq<Service>) returns (err: Option<Spec.ScrapeError>, ghost orders: seq<seq<string>>)
      modifies store
      ensures Spec.ValidOrders(infoer, services, orders)
      ensures (store.Snapshot(), err)
           == Spec.ScrapeServiceRegionInfo(old(store.Snapshot()), provider, infoer, services, orders)
    {
      err := None;
      orders := [];
      var i := 0;
      while i < |services|
        invariant 0 <= i <= |services|
        invariant err == None
        invariant Spec.ValidOrders(infoer, services[..i], orders)
        invariant Spec.ScrapeServiceRegionInfo(old(store.Snapshot()), provider, infoer, services[..i], orders)
               == (store.Snapshot(), None)
      {
        var service := services[i];
        assert services[..i + 1] == services[..i] + [service];
        assert services == services[..i] + services[i..];
        var regions := infoer.regions(service.name);
        if regions.err.Some? {
          err := Some(Spec.RegionsFailed(provider, service.name, regions.err.value));
          ghost var rest := Spec.OrdersFor(infoer, services[i..]);
          assert Spec.ScrapeServiceRegionInfo(store.Snapshot(), provider, infoer, services[i..], rest) == (store.Snapshot(), err);
          Spec.ScrapeServiceRegionInfoAppend(old(store.Snapshot()), provider, infoer, services[..i], orders, services[i..], rest);
          Spec.ValidOrdersAppend(infoer, services[..i], orders, services[i..], rest);
          orders := orders + rest;
          return;
        }
        ghost var start := store.Snapshot();
        var todo := regions.value.Keys;
        ghost var visited: seq<string> := [];
        while todo != {}
          invariant todo <= regions.value.Keys
          invariant err == None
          invariant IsEnumeration(visited, regions.value.Keys - todo)
          invariant Spec.ScrapeRegions(start, provider, infoer, service.name, visited) == (store.Snapshot(), None)
          decreases todo
        {
          var regionId :| regionId in todo;
          ghost var before := store.Snapshot();
          err := ScrapeRegion(service, regionId);
          Spec.ScrapeRegionsAppend(start, provider, infoer, service.name, visited, [regionId]);
          assert Spec.ScrapeRegions(before, provider, infoer, service.name, [regionId])
              == (var o := Spec.ScrapeRegion(before, provider, infoer, service.name, regionId);
                  if o.1.Some? then o else Spec.ScrapeRegions(o.0, provider, infoer, service.name, []));
          EnumerationConcat(visited, regions.value.Keys - todo, [regionId], {regionId});
          assert (regions.value.Keys - todo) + {regionId} == regions.value.Keys - (todo - {regionId});
          if err.Some? {
            ghost var unvisited := AnyOrder(todo - {regionId});
            ghost var order := visited + [regionId] + unvisited;
            EnumerationConcat(visited + [regionId], regions.value.Keys - (todo - {regionId}), unvisited, todo - {regionId});
            assert regions.value.Keys - (todo - {regionId}) + (todo - {regionId}) == regions.value.Keys;
            Spec.ScrapeRegionsAppend(start, provider, infoer, service.name, visited + [regionId], unvisited);
            CloseServiceLoop(old(store.Snapshot()), services, i, orders, order, start, store.Snapshot(), err);
            orders := orders + [order] + Spec.OrdersFor(infoer, services[i + 1..]);
            return;
          }
          visited := visited + [regionId];
          todo := todo - {regionId};
        }
        CloseServiceLoop(old(store.Snapshot()), services, i, orders, visited, start, store.Snapshot(), None);
        orders := orders + [visited];
        i := i + 1;
      }
      assert services[..i] == services;
    }

    /** One more service of the service loop, whose regions were visited in
        `order`, taking the store from `start` to `cur`. */
    lemma CloseServiceLoop(s0: StoreState, services: seq<Service>, i: nat, orders: seq<seq<string>>,
                           order: seq<string>, start: StoreState, cur: StoreState, err: Option<Spec.ScrapeError>)
      requires i < |services| && infoer.regions(services[i].name).err.None?
      requires Spec.ValidOrders(infoer, services[..i], orders)
      requires IsEnumeration(order, infoer.regions(services[i].name).value.Keys)
      requires Spec.ScrapeServiceRegionInfo(s0, provider, infoer, services[..i], orders) == (start, None)
      requires Spec.ScrapeRegions(start, provider, infoer, services[i].name, order) == (cur, err)
      ensures err.None? ==>
        && Spec.ValidOrders(infoer, services[..i + 1], orders + [order])
        && Spec.ScrapeServiceRegionInfo(s0, provider, infoer, services[..i + 1], orders + [order]) == (cur, None)
      ensures err.Some? ==>
        var all := orders + [order] + Spec.OrdersFor(infoer, services[i + 1..]);
        && Spec.ValidOrders(infoer, services, all)
        && Spec.ScrapeServiceRegionInfo(s0, provider, infoer, services, all) == (cur, err)
    {
      assert services[..i + 1] == services[..i] + [services[i]];
      assert Spec.ValidOrders(infoer, [services[i]], [order]);
      Spec.ValidOrdersAppend(infoer, services[..i], orders, [services[i]], [order]);
      Spec.ScrapeServiceRegionInfoAppend(s0, provider, infoer, services[..i], orders, [services[i]], [order]);
      if err.Some? {
        var rest := Spec.OrdersFor(infoer, services[i + 1..]);
        assert services == services[..i + 1] + services[i + 1..];
        Spec.ValidOrdersAppend(infoer, services[..i + 1], orders + [order], services[i + 1..], rest);
        Spec.ScrapeServiceRegionInfoAppend(s0, provider, infoer, services[..i + 1], orders + [order], services[i + 1..], rest);
      }
    }

    method UpdateStatus(stamp: string)
      modifies store
      ensures store.Snapshot() == Spec.UpdateStatus(old(store.Snapshot()), provider, stamp)
    {
      store.StoreStatus(provider, stamp);
    }

    /** `scrapeServiceInformation`; `stamp` stands for the current time in
        milliseconds, as a decimal string. */
    method ScrapeServiceInformation(stamp: string) returns (ghost orders: seq<seq<string>>)
      modifies store
      ensures Spec.ValidOrders(infoer, infoer.services.value, orders)
      ensures store.Snapshot() == Spec.ScrapeServiceInformation(old(store.Snapshot()), provider, infoer, orders, stamp)
    {
      // an error listing the services is only logged: the list returned with it is used
      var services := infoer.services.value;
      var attrErr := ScrapeServiceAttributes(services);
      var regionErr;
      regionErr, orders := ScrapeServiceRegionInfo(services);
      UpdateStatus(stamp);
    }

    /** `scrape`: one full cycle. */
    method Scrape(stamp: string) returns (ghost orders: seq<seq<string>>)
      modifies store
      ensures Spec.ValidOrders(infoer, infoer.services.value, orders)
      ensures store.Snapshot() == Spec.Scrape(old(store.Snapshot()), provider, infoer, orders, stamp)
    {
      Initialize();
      orders := ScrapeServiceInformation(stamp);
    }

    method ScrapePricesInRegion(region: string)
      modifies store
      ensures store.Snapshot() == Spec.ScrapePricesInRegion(old(store.Snapshot()), provider, infoer, region)
    {
      // an error is only logged: the prices returned with it are stored all the same
      var prices := infoer.currentPrices(region);
      StoreRegionPrices(region, prices.value);
    }

    /** `scrapePricesInAllRegions`, with the per-region tasks run one after the
        other (they write disjoint keys). */
    method ScrapePricesInAllRegions()
      modifies store
      ensures store.Snapshot() == Spec.ScrapePricesInAllRegions(old(store.Snapshot()), provider, infoer)
    {
      // an error is only logged: the regions returned with it are visited all the same
      var regions := infoer.regions("compute");
      var todo := regions.value.Keys;
      while todo != {}
        invariant todo <= regions.value.Keys
        invariant store.Snapshot() == old(store.Snapshot()).(prices := store.prices)
        invariant store.prices
               == old(store.prices) + Spec.PriceWrites(provider, Spec.CurrentPriceTable(infoer, regions.value.Keys - todo))
        decreases todo
      {
        var regionId :| regionId in todo;
        ScrapePricesInRegion(regionId);
        AllRegionsStep(provider, infoer, old(store.prices), regions.value.Keys, todo, regionId);
        todo := todo - {regionId};
      }
      assert regions.value.Keys - todo == Spec.ComputeRegions(infoer);
    }
  }

  /** What a tick of one of the driver's periodic executors starts, one
      goroutine per task: a full scrape or a refresh of the short-lived prices. */
  datatype Task = FullRefresh(manager: ScrapingManager) | PriceRefresh(manager: ScrapingManager)

  /** `ScrapingDriver`: one scraping manager per provider, all sharing one store. */
  class ScrapingDriver {
    const managers: seq<ScrapingManager>
    const renewalInterval: nat

    /** `NewScrapingDriver`: one manager for each entry of `infoers`, in the
        order in which `range` visits them. */
    constructor (renewalInterval: nat, infoers: map<string, Infoer>, store: CloudInfoStore)
      ensures this.renewalInterval == renewalInterval
      ensures |managers| == |infoers|
      ensures forall p :: p in infoers <==> exists i :: 0 <= i < |managers| && managers[i].provider == p
      ensures forall i :: 0 <= i < |managers| ==>
        && managers[i].provider in infoers
        && managers[i].infoer == infoers[managers[i].provider]
        && managers[i].store == store
      ensures forall i, j :: 0 <= i < j < |managers| ==> managers[i].provider != managers[j].provider
    {
      var ms: seq<ScrapingManager> := [];
      ghost var names: seq<string> := [];
      var todo := infoers.Keys;
      while todo != {}
        invariant todo <= infoers.Keys
        invariant |ms| + |todo| == |infoers|
        invariant |names| == |ms| && forall i :: 0 <= i < |ms| ==> ms[i].provider == names[i]
        invariant forall p :: p in infoers.Keys - todo <==> p in names
        invariant forall i :: 0 <= i < |ms| ==>
          && ms[i].provider in infoers.Keys - todo
          && ms[i].infoer == infoers[ms[i].provider]
          && ms[i].store == store
        invariant forall i, j :: 0 <= i < j < |ms| ==> ms[i].provider != ms[j].provider
        decreases todo
      {
        var provider :| provider in todo;
        var m := new ScrapingManager(provider, infoers[provider], store);
        ms := ms + [m];
        names := names + [provider];
        todo := todo - {provider};
      }
      assert infoers.Keys - todo == infoers.Keys;
      forall p | p in infoers ensures exists i :: 0 <= i < |ms| && ms[i].provider == p {
        var i :| 0 <= i < |names| && names[i] == p;
        assert ms[i].provider == p;
      }
      managers := ms;
      this.renewalInterval := renewalInterval;
    }

    /** `renewAll`: a full scrape for every provider. */
    method RenewAll() returns (tasks: seq<Task>)
      ensures |tasks| == |managers|
      ensures forall i :: 0 <= i < |tasks| ==> tasks[i] == FullRefresh(managers[i])
    {
      tasks := [];
      for i := 0 to |managers|
        invariant |tasks| == i
        invariant forall k :: 0 <= k < i ==> tasks[k] == FullRefresh(managers[k])
      {
        tasks := tasks + [FullRefresh(managers[i])];
      }
    }

    /** `renewShortLived`: a price refresh for exactly the providers whose
        infoer has short-lived price information, in the managers' order. */
    method RenewShortLived() returns (tasks: seq<Task>)
      ensures |tasks| <= |managers|
      ensures forall t :: t in tasks <==>
        t.PriceRefresh? && t.manager in managers && t.manager.infoer.hasShortLivedPriceInfo
      ensures tasks == ShortLived(managers)
      ensures (forall i, j :: 0 <= i < j < |managers| ==> managers[i] != managers[j]) ==>
        forall i, j :: 0 <= i < j < |tasks| ==> tasks[i] != tasks[j]
    {
      tasks := [];
      for i := 0 to |managers|
        invariant tasks == ShortLived(managers[..i])
      {
        assert managers[..i + 1] == managers[..i] + [managers[i]];
        ShortLivedAppend(managers[..i], [managers[i]]);
        if managers[i].infoer.hasShortLivedPriceInfo {
          tasks := tasks + [PriceRefresh(managers[i])];
        }
      }
      assert managers[..|managers|] == managers;
      ShortLivedSpec(managers);
      if forall i, j :: 0 <= i < j < |managers| ==> managers[i] != managers[j] {
        ShortLivedDistinct(managers);
      }
    }
  }

  /** The price-refresh tasks for `ms`, skipping providers without short-lived prices. */
  function ShortLived(ms: seq<ScrapingManager>): seq<Task>
    decreases |ms|
  {
    if ms == [] then []
    else if ms[0].infoer.hasShortLivedPriceInfo then [PriceRefresh(ms[0])] + ShortLived(ms[1..])
    else ShortLived(ms[1..])
  }

  lemma {:induction false} ShortLivedAppend(a: seq<ScrapingManager>, b: seq<ScrapingManager>)
    ensures ShortLived(a + b) == ShortLived(a) + ShortLived(b)
    decreases |a|
  {
    if a != [] {
      assert (a + b)[0] == a[0] && (a + b)[1..] == a[1..] + b;
      ShortLivedAppend(a[1..], b);
    } else {
      assert a + b == b;
    }
  }

  /** A manager is refreshed exactly when its infoer has short-lived prices,
      and there are no more tasks than managers. */
  lemma {:induction false} ShortLivedSpec(ms: seq<ScrapingManager>)
    ensures |ShortLived(ms)| <= |ms|
    ensures forall t :: t in ShortLived(ms) <==>
      t.PriceRefresh? && t.manager in ms && t.manager.infoer.hasShortLivedPriceInfo
    decreases |ms|
  {
    if ms != [] {
      ShortLivedSpec(ms[1..]);
      assert forall m :: m in ms <==> m == ms[0] || m in ms[1..];
    }
  }

  /** Managers listed once each get one price refresh each: no task repeats. */
  lemma {:induction false} ShortLivedDistinct(ms: seq<ScrapingManager>)
    requires forall i, j :: 0 <= i < j < |ms| ==> ms[i] != ms[j]
    ensures forall i, j :: 0 <= i < j < |ShortLived(ms)| ==> ShortLived(ms)[i] != ShortLived(ms)[j]
    decreases |ms|
  {
    if ms != [] {
      ShortLivedDistinct(ms[1..]);
      ShortLivedSpec(ms[1..]);
      assert ms[0] !in ms[1..] by {
        forall k | 0 <= k < |ms[1..]| ensures ms[1..][k] != ms[0] {
          assert ms[1..][k] == ms[k + 1];
        }
      }
    }
  }
}
