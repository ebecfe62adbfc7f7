/** What a scraping manager promises, proved about the functions of ScrapeSpec
    (which the manager's methods are proved to implement).

    The central fact is that no step reads the store: every step writes, over
    whatever the store held, a fixed patch of entries owned by its provider,
    and its error does not depend on the store either. From that follow
    provider isolation, idempotence of a cycle repeated with the same region
    visit orders, and that the cycles of two providers commute: for the
    driver's concurrent `go manager.scrape(ctx)` calls, the two serial orders
    of two providers' cycles agree. */
module ScrapeProperties {
  import opened CloudInfoTypes
  import opened ProductStore
  import opened ScrapeSpec

  /** The categories a full cycle may write: never services, regions or zones. */
  const CycleCats := {PriceCat, AttributeCat, VmCat, ImageCat, VersionCat, StatusCat}

  /** The categories of the per-region chain. */
  const RegionCats := {VmCat, ImageCat, VersionCat}

  /** `o`, the outcome of a step run on `s`, is the patch `e.0` (the store the
      same step leaves when run on an empty store) written over `s`, with the
      same error; the patch holds only entries of `p` in the categories `cats`. */
  ghost predicate Patches(o: Outcome, s: StoreState, e: Outcome, p: string, cats: set<Category>) {
    o == (Overlay(s, e.0), e.1) && WritesOnly(e.0, p, cats)
  }

  // ---------------------------------------------------------------------------
  // every step is a patch

  lemma InitializePatch(s: StoreState, p: string, inf: Infoer)
    ensures Initialize(s, p, inf) == Overlay(s, Initialize(Empty, p, inf))
    ensures WritesOnly(Initialize(Empty, p, inf), p, {PriceCat})
    ensures Initialize(Empty, p, inf).prices == PriceWrites(p, inf.initialize.value)
  {
    OverlayEmpty(s);
    MapUnionEmpty(PriceWrites(p, inf.initialize.value));
  }

  lemma {:induction false} ServiceAttributesPatch(s: StoreState, p: string, inf: Infoer, svc: string, attrs: seq<string>)
    ensures Patches(ServiceAttributes(s, p, inf, svc, attrs), s, ServiceAttributes(Empty, p, inf, svc, attrs), p, {AttributeCat})
    decreases |attrs|
  {
    OverlayEmpty(s);
    if attrs != [] {
      var resp := inf.attributeValues(svc, attrs[0]);
      if resp.err.None? {
        var a := Empty.PutAttribute(p, svc, attrs[0], resp.value);
        var w := ServiceAttributes(Empty, p, inf, svc, attrs[1..]).0;
        PutAttributeIsOverlay(s, p, svc, attrs[0], resp.value);
        ServiceAttributesPatch(s.PutAttribute(p, svc, attrs[0], resp.value), p, inf, svc, attrs[1..]);
        ServiceAttributesPatch(a, p, inf, svc, attrs[1..]);
        OverlayAssociative(s, a, w);
        OverlayWritesOnly(a, w, p, {AttributeCat});
      }
    }
  }

  lemma {:induction false} ScrapeServiceAttributesPatch(s: StoreState, p: string, inf: Infoer, services: seq<Service>)
    ensures Patches(ScrapeServiceAttributes(s, p, inf, services), s,
                    ScrapeServiceAttributes(Empty, p, inf, services), p, {AttributeCat})
    decreases |services|
  {
    OverlayEmpty(s);
    if services != [] {
      var attrs := AttributeNames(inf);
      var svc := services[0].name;
      ServiceAttributesPatch(s, p, inf, svc, attrs);
      var a := ServiceAttributes(Empty, p, inf, svc, attrs);
      if a.1.None? {
        var w := ScrapeServiceAttributes(Empty, p, inf, services[1..]).0;
        ScrapeServiceAttributesPatch(Overlay(s, a.0), p, inf, services[1..]);
        ScrapeServiceAttributesPatch(a.0, p, inf, services[1..]);
        OverlayEmpty(a.0);
        OverlayAssociative(s, a.0, w);
        OverlayWritesOnly(a.0, w, p, {AttributeCat});
      }
    }
  }

  lemma ProductsPatch(s: StoreState, p: string, inf: Infoer, svc: string, r: string)
    ensures Patches(ScrapeServiceRegionProducts(s, p, inf, svc, r), s,
                    ScrapeServiceRegionProducts(Empty, p, inf, svc, r), p, {VmCat})
  {
    OverlayEmpty(s);
    var resp := inf.products(svc, r);
    PutVmIsOverlay(s, p, svc, r, resp.value);
  }

  lemma ImagesPatch(s: StoreState, p: string, inf: Infoer, svc: string, r: string)
    ensures Patches(ScrapeServiceRegionImages(s, p, inf, svc, r), s,
                    ScrapeServiceRegionImages(Empty, p, inf, svc, r), p, {ImageCat})
  {
    OverlayEmpty(s);
    var resp := inf.serviceImages(svc, r);
    PutImageIsOverlay(s, p, svc, r, resp.value);
  }

  lemma VersionsPatch(s: StoreState, p: string, inf: Infoer, svc: string, r: string)
    ensures Patches(ScrapeServiceRegionVersions(s, p, inf, svc, r), s,
                    ScrapeServiceRegionVersions(Empty, p, inf, svc, r), p, {VersionCat})
  {
    OverlayEmpty(s);
    var resp := inf.versions(svc, r);
    PutVersionIsOverlay(s, p, svc, r, resp.value);
  }

  /** Two patches written one after the other are one patch. */
  lemma PatchesThen(s: StoreState, a: StoreState, w: StoreState, p: string, cats: set<Category>)
    requires WritesOnly(a, p, cats) && WritesOnly(w, p, cats)
    ensures Overlay(Overlay(s, a), w) == Overlay(s, Overlay(a, w))
    ensures WritesOnly(Overlay(a, w), p, cats)
  {
    OverlayAssociative(s, a, w);
    OverlayWritesOnly(a, w, p, cats);
  }

  lemma ScrapeRegionPatch(s: StoreState, p: string, inf: Infoer, svc: string, r: string)
    ensures Patches(ScrapeRegion(s, p, inf, svc, r), s, ScrapeRegion(Empty, p, inf, svc, r), p, RegionCats)
  {
    OverlayEmpty(s);
    ProductsPatch(s, p, inf, svc, r);
    var a := ScrapeServiceRegionProducts(Empty, p, inf, svc, r);
    WritesOnlyWiden(a.0, p, {VmCat}, RegionCats);
    if a.1.None? {
      ImagesPatch(Overlay(s, a.0), p, inf, svc, r);
      ImagesPatch(a.0, p, inf, svc, r);
      var b := ScrapeServiceRegionImages(Empty, p, inf, svc, r);
      WritesOnlyWiden(b.0, p, {ImageCat}, RegionCats);
      PatchesThen(s, a.0, b.0, p, RegionCats);
      if b.1.None? {
        var ab := Overlay(a.0, b.0);
        VersionsPatch(Overlay(s, ab), p, inf, svc, r);
        VersionsPatch(ab, p, inf, svc, r);
        var c := ScrapeServiceRegionVersions(Empty, p, inf, svc, r);
        WritesOnlyWiden(c.0, p, {VersionCat}, RegionCats);
        PatchesThen(s, ab, c.0, p, RegionCats);
      }
    }
  }

  lemma {:induction false} ScrapeRegionsPatch(s: StoreState, p: string, inf: Infoer, svc: string, order: seq<string>)
    ensures Patches(ScrapeRegions(s, p, inf, svc, order), s, ScrapeRegions(Empty, p, inf, svc, order), p, RegionCats)
    decreases |order|
  {
    OverlayEmpty(s);
    if order != [] {
      ScrapeRegionPatch(s, p, inf, svc, order[0]);
      var a := ScrapeRegion(Empty, p, inf, svc, order[0]);
      if a.1.None? {
        var w := ScrapeRegions(Empty, p, inf, svc, order[1..]).0;
        ScrapeRegionsPatch(Overlay(s, a.0), p, inf, svc, order[1..]);
        ScrapeRegionsPatch(a.0, p, inf, svc, order[1..]);
        OverlayEmpty(a.0);
        OverlayAssociative(s, a.0, w);
        OverlayWritesOnly(a.0, w, p, RegionCats);
      }
    }
  }

  lemma {:induction false} ScrapeServiceRegionInfoPatch(s: StoreState, p: string, inf: Infoer, services: seq<Service>,
                                                       orders: seq<seq<string>>)
    requires |orders| == |services|
    ensures Patches(ScrapeServiceRegionInfo(s, p, inf, services, orders), s,
                    ScrapeServiceRegionInfo(Empty, p, inf, services, orders), p, RegionCats)
    decreases |services|
  {
    OverlayEmpty(s);
    if services != [] && inf.regions(services[0].name).err.None? {
      ScrapeRegionsPatch(s, p, inf, services[0].name, orders[0]);
      var a := ScrapeRegions(Empty, p, inf, services[0].name, orders[0]);
      if a.1.None? {
        var w := ScrapeServiceRegionInfo(Empty, p, inf, services[1..], orders[1..]).0;
        ScrapeServiceRegionInfoPatch(Overlay(s, a.0), p, inf, services[1..], orders[1..]);
        ScrapeServiceRegionInfoPatch(a.0, p, inf, services[1..], orders[1..]);
        OverlayEmpty(a.0);
        OverlayAssociative(s, a.0, w);
        OverlayWritesOnly(a.0, w, p, RegionCats);
      }
    }
  }

  /** A full cycle writes a fixed patch of `p`'s entries over the store, in
      the categories `CycleCats` only. */
  lemma ScrapePatch(s: StoreState, p: string, inf: Infoer, orders: seq<seq<string>>, stamp: string)
    requires |orders| == |inf.services.value|
    ensures Scrape(s, p, inf, orders, stamp) == Overlay(s, Scrape(Empty, p, inf, orders, stamp))
    ensures WritesOnly(Scrape(Empty, p, inf, orders, stamp), p, CycleCats)
  {
    var services := inf.services.value;
    InitializePatch(s, p, inf);
    var i := Initialize(Empty, p, inf);
    WritesOnlyWiden(i, p, {PriceCat}, CycleCats);
    ScrapeServiceAttributesPatch(Overlay(s, i), p, inf, services);
    ScrapeServiceAttributesPatch(i, p, inf, services);
    var a := ScrapeServiceAttributes(Empty, p, inf, services).0;
    WritesOnlyWiden(a, p, {AttributeCat}, CycleCats);
    OverlayAssociative(s, i, a);
    OverlayWritesOnly(i, a, p, CycleCats);
    var ia := Overlay(i, a);
    ScrapeServiceRegionInfoPatch(Overlay(s, ia), p, inf, services, orders);
    ScrapeServiceRegionInfoPatch(ia, p, inf, services, orders);
    var r := ScrapeServiceRegionInfo(Empty, p, inf, services, orders).0;
    WritesOnlyWiden(r, p, RegionCats, CycleCats);
    OverlayAssociative(s, ia, r);
    OverlayWritesOnly(ia, r, p, CycleCats);
    var iar := Overlay(ia, r);
    PutStatusIsOverlay(Overlay(s, iar), p, stamp);
    PutStatusIsOverlay(iar, p, stamp);
    var st := Empty.PutStatus(p, stamp);
    WritesOnlyWiden(st, p, {StatusCat}, CycleCats);
    OverlayAssociative(s, iar, st);
    OverlayWritesOnly(iar, st, p, CycleCats);
  }

  // ---------------------------------------------------------------------------
  // consequences for a full cycle

  /** Provider isolation: a cycle of provider `p` leaves every entry of every
      other provider as it was. */
  lemma ScrapeIsolation(s: StoreState, p: string, inf: Infoer, orders: seq<seq<string>>, stamp: string)
    requires |orders| == |inf.services.value|
    ensures Without(Scrape(s, p, inf, orders, stamp), p) == Without(s, p)
  {
    ScrapePatch(s, p, inf, orders, stamp);
    OverlayKeepsOthers(s, Scrape(Empty, p, inf, orders, stamp), p);
  }

  lemma PatchKeepsListings(s: StoreState, w: StoreState, p: string)
    requires WritesOnly(w, p, CycleCats)
    ensures Overlay(s, w).services == s.services && Overlay(s, w).regions == s.regions
    ensures Overlay(s, w).zones == s.zones
  {
    OverlayOutside(s, w, p, CycleCats);
  }

  /** A cycle never writes services, regions or zones (the scraper lists
      services and regions but does not store them). */
  lemma ScrapeKeepsListings(s: StoreState, p: string, inf: Infoer, orders: seq<seq<string>>, stamp: string)
    requires |orders| == |inf.services.value|
    ensures Scrape(s, p, inf, orders, stamp).services == s.services
    ensures Scrape(s, p, inf, orders, stamp).regions == s.regions
    ensures Scrape(s, p, inf, orders, stamp).zones == s.zones
  {
    ScrapePatch(s, p, inf, orders, stamp);
    PatchKeepsListings(s, Scrape(Empty, p, inf, orders, stamp), p);
  }

  /** With the same responses and the same region visit orders, a second
      cycle changes nothing. Go picks a new map order on every cycle; see
      ScrapeCycleProperties for when the orders do not matter. */
  lemma ScrapeIdempotent(s: StoreState, p: string, inf: Infoer, orders: seq<seq<string>>, stamp: string)
    requires |orders| == |inf.services.value|
    ensures Scrape(Scrape(s, p, inf, orders, stamp), p, inf, orders, stamp) == Scrape(s, p, inf, orders, stamp)
  {
    var w := Scrape(Empty, p, inf, orders, stamp);
    ScrapePatch(s, p, inf, orders, stamp);
    ScrapePatch(Overlay(s, w), p, inf, orders, stamp);
    OverlayIdempotent(s, w);
  }

  /** The cycles of two different providers commute: run one after the
      other, in either order, they end in the same store. */
  lemma ScrapesCommute(s: StoreState, p: string, pInf: Infoer, pOrders: seq<seq<string>>, pStamp: string,
                       q: string, qInf: Infoer, qOrders: seq<seq<string>>, qStamp: string)
    requires p != q
    requires |pOrders| == |pInf.services.value| && |qOrders| == |qInf.services.value|
    ensures Scrape(Scrape(s, p, pInf, pOrders, pStamp), q, qInf, qOrders, qStamp)
         == Scrape(Scrape(s, q, qInf, qOrders, qStamp), p, pInf, pOrders, pStamp)
  {
    var a := Scrape(Empty, p, pInf, pOrders, pStamp);
    var b := Scrape(Empty, q, qInf, qOrders, qStamp);
    ScrapePatch(s, p, pInf, pOrders, pStamp);
    ScrapePatch(s, q, qInf, qOrders, qStamp);
    ScrapePatch(Overlay(s, a), q, qInf, qOrders, qStamp);
    ScrapePatch(Overlay(s, b), p, pInf, pOrders, pStamp);
    OverlayCommutes(s, a, p, b, q);
  }

  lemma PatchKeepsPricesAndStatus(s: StoreState, w: StoreState, p: string, cats: set<Category>)
    requires WritesOnly(w, p, cats) && PriceCat !in cats && StatusCat !in cats
    ensures Overlay(s, w).prices == s.prices && Overlay(s, w).status == s.status
  {
    OverlayOutside(s, w, p, cats);
  }

  /** Whatever fails, a cycle ends by stamping `p`'s status, and the only
      prices it writes are those of the bulk snapshot from `Initialize`. */
  lemma ScrapeStampsStatus(s: StoreState, p: string, inf: Infoer, orders: seq<seq<string>>, stamp: string)
    requires |orders| == |inf.services.value|
    ensures Scrape(s, p, inf, orders, stamp).status == s.status[p := stamp]
    ensures Scrape(s, p, inf, orders, stamp).prices == s.prices + PriceWrites(p, inf.initialize.value)
  {
    var services := inf.services.value;
    var i := Initialize(s, p, inf);
    ScrapeServiceAttributesPatch(i, p, inf, services);
    PatchKeepsPricesAndStatus(i, ScrapeServiceAttributes(Empty, p, inf, services).0, p, {AttributeCat});
    var a := ScrapeServiceAttributes(i, p, inf, services).0;
    ScrapeServiceRegionInfoPatch(a, p, inf, services, orders);
    PatchKeepsPricesAndStatus(a, ScrapeServiceRegionInfo(Empty, p, inf, services, orders).0, p, RegionCats);
  }
}
