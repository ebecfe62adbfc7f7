/** The product store that the scrapers write and the facade reads: one
    last-write-wins map per category, keyed by composite keys whose first part
    is always the provider. Expiry (the store's TTLs) is not modelled. */
module ProductStore {
  import opened CloudInfoTypes

  type AttrKey = (string, string, string)      // (provider, service, attribute)
  type ZoneKey = (string, string)              // (provider, region)
  type RegionKey = (string, string)            // (provider, service)
  type RegionalKey = (string, string, string)  // (provider, service, region)
  type PriceKey = (string, string, string)     // (provider, region, instance type)

  /** The contents of the store at one moment. */
  datatype StoreState = StoreState(
    attributes: map<AttrKey, AttrValues>,
    zones: map<ZoneKey, seq<string>>,
    regions: map<RegionKey, map<string, string>>,
    services: map<string, seq<Service>>,
    vms: map<RegionalKey, seq<VmInfo>>,
    prices: map<PriceKey, Price>,
    images: map<RegionalKey, seq<Image>>,
    versions: map<RegionalKey, seq<string>>,
    status: map<string, string>)
  {
    function PutAttribute(p: string, s: string, a: string, v: AttrValues): StoreState {
      this.(attributes := attributes[(p, s, a) := v])
    }
    function PutZones(p: string, r: string, v: seq<string>): StoreState {
      this.(zones := zones[(p, r) := v])
    }
    function PutRegions(p: string, s: string, v: map<string, string>): StoreState {
      this.(regions := regions[(p, s) := v])
    }
    function PutServices(p: string, v: seq<Service>): StoreState {
      this.(services := services[p := v])
    }
    function PutVm(p: string, s: string, r: string, v: seq<VmInfo>): StoreState {
      this.(vms := vms[(p, s, r) := v])
    }
    function PutPrice(p: string, r: string, t: string, v: Price): StoreState {
      this.(prices := prices[(p, r, t) := v])
    }
    function PutImage(p: string, s: string, r: string, v: seq<Image>): StoreState {
      this.(images := images[(p, s, r) := v])
    }
    function PutVersion(p: string, s: string, r: string, v: seq<string>): StoreState {
      this.(versions := versions[(p, s, r) := v])
    }
    function PutStatus(p: string, v: string): StoreState {
      this.(status := status[p := v])
    }
  }

  /** A store nothing has been written to. */
  const Empty := StoreState(map[], map[], map[], map[], map[], map[], map[], map[], map[])

  /** `s` with every entry of `w` written over it. */
  function Overlay(s: StoreState, w: StoreState): StoreState {
    StoreState(
      s.attributes + w.attributes, s.zones + w.zones, s.regions + w.regions,
      s.services + w.services, s.vms + w.vms, s.prices + w.prices,
      s.images + w.images, s.versions + w.versions, s.status + w.status)
  }

  /** Every key in `w`, in every category, belongs to provider `p`. */
  ghost predicate OwnedBy(w: StoreState, p: string) {
    && (forall k :: k in w.attributes ==> k.0 == p)
    && (forall k :: k in w.zones ==> k.0 == p)
    && (forall k :: k in w.regions ==> k.0 == p)
    && (forall k :: k in w.services ==> k == p)
    && (forall k :: k in w.vms ==> k.0 == p)
    && (forall k :: k in w.prices ==> k.0 == p)
    && (forall k :: k in w.images ==> k.0 == p)
    && (forall k :: k in w.versions ==> k.0 == p)
    && (forall k :: k in w.status ==> k == p)
  }

  /** The categories of the store, one per map. */
  datatype Category =
    AttributeCat | ZoneCat | RegionCat | ServiceCat | VmCat | PriceCat | ImageCat | VersionCat | StatusCat

  /** `w` holds entries of provider `p` only, and only in the categories `cats`. */
  ghost predicate WritesOnly(w: StoreState, p: string, cats: set<Category>) {
    && OwnedBy(w, p)
    && (AttributeCat !in cats ==> w.attributes == map[])
    && (ZoneCat !in cats ==> w.zones == map[])
    && (RegionCat !in cats ==> w.regions == map[])
    && (ServiceCat !in cats ==> w.services == map[])
    && (VmCat !in cats ==> w.vms == map[])
    && (PriceCat !in cats ==> w.prices == map[])
    && (ImageCat !in cats ==> w.images == map[])
    && (VersionCat !in cats ==> w.versions == map[])
    && (StatusCat !in cats ==> w.status == map[])
  }

  lemma WritesOnlyWiden(w: StoreState, p: string, cats: set<Category>, more: set<Category>)
    requires WritesOnly(w, p, cats) && cats <= more
    ensures WritesOnly(w, p, more)
  {
  }

  /** Writing a patch leaves every category outside `cats` as it was. */
  lemma OverlayOutside(s: StoreState, w: StoreState, p: string, cats: set<Category>)
    requires WritesOnly(w, p, cats)
    ensures AttributeCat !in cats ==> Overlay(s, w).attributes == s.attributes
    ensures ZoneCat !in cats ==> Overlay(s, w).zones == s.zones
    ensures RegionCat !in cats ==> Overlay(s, w).regions == s.regions
    ensures ServiceCat !in cats ==> Overlay(s, w).services == s.services
    ensures VmCat !in cats ==> Overlay(s, w).vms == s.vms
    ensures PriceCat !in cats ==> Overlay(s, w).prices == s.prices
    ensures ImageCat !in cats ==> Overlay(s, w).images == s.images
    ensures VersionCat !in cats ==> Overlay(s, w).versions == s.versions
    ensures StatusCat !in cats ==> Overlay(s, w).status == s.status
  {
    OverlayEmpty(s);
  }

  /** `m` without the keys that `owned` picks out. */
  function Drop<K, V>(m: map<K, V>, owned: K -> bool): map<K, V> {
    map k | k in m && !owned(k) :: m[k]
  }

  /** `s` with every entry of provider `p` dropped: what other providers see. */
  function Without(s: StoreState, p: string): StoreState {
    StoreState(
      Drop(s.attributes, (k: AttrKey) => k.0 == p), Drop(s.zones, (k: ZoneKey) => k.0 == p),
      Drop(s.regions, (k: RegionKey) => k.0 == p), Drop(s.services, k => k == p),
      Drop(s.vms, (k: RegionalKey) => k.0 == p), Drop(s.prices, (k: PriceKey) => k.0 == p),
      Drop(s.images, (k: RegionalKey) => k.0 == p), Drop(s.versions, (k: RegionalKey) => k.0 == p),
      Drop(s.status, k => k == p))
  }

  lemma DropUnion<K, V>(a: map<K, V>, w: map<K, V>, owned: K -> bool)
    requires forall k :: k in w ==> owned(k)
    ensures Drop(a + w, owned) == Drop(a, owned)
  {
    assert Drop(a + w, owned) == Drop(a, owned);
  }

  lemma MapUnionEmpty<K, V>(m: map<K, V>)
    ensures m + map[] == m && map[] + m == m
  {
    assert m + map[] == m;
    assert map[] + m == m;
  }

  lemma MapUnionAssociative<K, V>(a: map<K, V>, b: map<K, V>, c: map<K, V>)
    ensures (a + b) + c == a + (b + c)
  {
    assert (a + b) + c == a + (b + c);
  }

  lemma MapUnionIdempotent<K, V>(a: map<K, V>, w: map<K, V>)
    ensures (a + w) + w == a + w
  {
    assert (a + w) + w == a + w;
  }

  lemma MapUnionCommutes<K, V>(a: map<K, V>, b: map<K, V>, c: map<K, V>)
    requires b.Keys !! c.Keys
    ensures (a + b) + c == (a + c) + b
  {
    assert (a + b) + c == (a + c) + b;
  }

  lemma OverlayEmpty(s: StoreState)
    ensures Overlay(s, Empty) == s && Overlay(Empty, s) == s
  {
    MapUnionEmpty(s.attributes); MapUnionEmpty(s.zones); MapUnionEmpty(s.regions);
    MapUnionEmpty(s.services); MapUnionEmpty(s.vms); MapUnionEmpty(s.prices);
    MapUnionEmpty(s.images); MapUnionEmpty(s.versions); MapUnionEmpty(s.status);
  }

  /** Writing `a` and then `b` is writing their overlay. */
  lemma OverlayAssociative(s: StoreState, a: StoreState, b: StoreState)
    ensures Overlay(Overlay(s, a), b) == Overlay(s, Overlay(a, b))
  {
    MapUnionAssociative(s.attributes, a.attributes, b.attributes);
    MapUnionAssociative(s.zones, a.zones, b.zones);
    MapUnionAssociative(s.regions, a.regions, b.regions);
    MapUnionAssociative(s.services, a.services, b.services);
    MapUnionAssociative(s.vms, a.vms, b.vms);
    MapUnionAssociative(s.prices, a.prices, b.prices);
    MapUnionAssociative(s.images, a.images, b.images);
    MapUnionAssociative(s.versions, a.versions, b.versions);
    MapUnionAssociative(s.status, a.status, b.status);
  }

  /** Writing the same entries twice is writing them once. */
  lemma OverlayIdempotent(s: StoreState, w: StoreState)
    ensures Overlay(Overlay(s, w), w) == Overlay(s, w)
  {
    MapUnionIdempotent(s.attributes, w.attributes); MapUnionIdempotent(s.zones, w.zones);
    MapUnionIdempotent(s.regions, w.regions); MapUnionIdempotent(s.services, w.services);
    MapUnionIdempotent(s.vms, w.vms); MapUnionIdempotent(s.prices, w.prices);
    MapUnionIdempotent(s.images, w.images); MapUnionIdempotent(s.versions, w.versions);
    MapUnionIdempotent(s.status, w.status);
  }

  /** Writes of two different providers commute. */
  lemma OverlayCommutes(s: StoreState, a: StoreState, p: string, b: StoreState, q: string)
    requires OwnedBy(a, p) && OwnedBy(b, q) && p != q
    ensures Overlay(Overlay(s, a), b) == Overlay(Overlay(s, b), a)
  {
    MapUnionCommutes(s.attributes, a.attributes, b.attributes);
    MapUnionCommutes(s.zones, a.zones, b.zones);
    MapUnionCommutes(s.regions, a.regions, b.regions);
    MapUnionCommutes(s.services, a.services, b.services);
    MapUnionCommutes(s.vms, a.vms, b.vms);
    MapUnionCommutes(s.prices, a.prices, b.prices);
    MapUnionCommutes(s.images, a.images, b.images);
    MapUnionCommutes(s.versions, a.versions, b.versions);
    MapUnionCommutes(s.status, a.status, b.status);
  }

  /** Writes of provider `p` are invisible to everyone else. */
  lemma OverlayKeepsOthers(s: StoreState, w: StoreState, p: string)
    requires OwnedBy(w, p)
    ensures Without(Overlay(s, w), p) == Without(s, p)
  {
    DropUnion(s.attributes, w.attributes, (k: AttrKey) => k.0 == p);
    DropUnion(s.zones, w.zones, (k: ZoneKey) => k.0 == p);
    DropUnion(s.regions, w.regions, (k: RegionKey) => k.0 == p);
    DropUnion(s.services, w.services, k => k == p);
    DropUnion(s.vms, w.vms, (k: RegionalKey) => k.0 == p);
    DropUnion(s.prices, w.prices, (k: PriceKey) => k.0 == p);
    DropUnion(s.images, w.images, (k: RegionalKey) => k.0 == p);
    DropUnion(s.versions, w.versions, (k: RegionalKey) => k.0 == p);
    DropUnion(s.status, w.status, k => k == p);
  }

  lemma OverlayWritesOnly(a: StoreState, b: StoreState, p: string, cats: set<Category>)
    requires WritesOnly(a, p, cats) && WritesOnly(b, p, cats)
    ensures WritesOnly(Overlay(a, b), p, cats)
  {
    MapUnionEmpty<AttrKey, AttrValues>(map[]); MapUnionEmpty<ZoneKey, seq<string>>(map[]);
    MapUnionEmpty<RegionKey, map<string, string>>(map[]); MapUnionEmpty<string, seq<Service>>(map[]);
    MapUnionEmpty<RegionalKey, seq<VmInfo>>(map[]); MapUnionEmpty<PriceKey, Price>(map[]);
    MapUnionEmpty<RegionalKey, seq<Image>>(map[]); MapUnionEmpty<RegionalKey, seq<string>>(map[]);
    MapUnionEmpty<string, string>(map[]);
  }

  lemma MapUpdateIsUnion<K, V>(m: map<K, V>, k: K, v: V)
    ensures m[k := v] == m + map[k := v]
  {
    assert m[k := v] == m + map[k := v];
  }

  lemma MapUnionUpdate<K, V>(a: map<K, V>, b: map<K, V>, k: K, v: V)
    ensures (a + b)[k := v] == a + b[k := v]
  {
    assert (a + b)[k := v] == a + b[k := v];
  }

  // Each single write is an overlay of one entry of one category.

  lemma PutAttributeIsOverlay(s: StoreState, p: string, a: string, b: string, v: AttrValues)
    ensures s.PutAttribute(p, a, b, v) == Overlay(s, Empty.PutAttribute(p, a, b, v))
    ensures WritesOnly(Empty.PutAttribute(p, a, b, v), p, {AttributeCat})
  {
    OverlayEmpty(s);
    MapUpdateIsUnion(s.attributes, (p, a, b), v);
  }

  lemma PutVmIsOverlay(s: StoreState, p: string, a: string, b: string, v: seq<VmInfo>)
    ensures s.PutVm(p, a, b, v) == Overlay(s, Empty.PutVm(p, a, b, v))
    ensures WritesOnly(Empty.PutVm(p, a, b, v), p, {VmCat})
  {
    OverlayEmpty(s);
    MapUpdateIsUnion(s.vms, (p, a, b), v);
  }

  lemma PutImageIsOverlay(s: StoreState, p: string, a: string, b: string, v: seq<Image>)
    ensures s.PutImage(p, a, b, v) == Overlay(s, Empty.PutImage(p, a, b, v))
    ensures WritesOnly(Empty.PutImage(p, a, b, v), p, {ImageCat})
  {
    OverlayEmpty(s);
    MapUpdateIsUnion(s.images, (p, a, b), v);
  }

  lemma PutVersionIsOverlay(s: StoreState, p: string, a: string, b: string, v: seq<string>)
    ensures s.PutVersion(p, a, b, v) == Overlay(s, Empty.PutVersion(p, a, b, v))
    ensures WritesOnly(Empty.PutVersion(p, a, b, v), p, {VersionCat})
  {
    OverlayEmpty(s);
    MapUpdateIsUnion(s.versions, (p, a, b), v);
  }

  lemma PutPriceIsOverlay(s: StoreState, p: string, a: string, b: string, v: Price)
    ensures s.PutPrice(p, a, b, v) == Overlay(s, Empty.PutPrice(p, a, b, v))
    ensures WritesOnly(Empty.PutPrice(p, a, b, v), p, {PriceCat})
  {
    OverlayEmpty(s);
    MapUpdateIsUnion(s.prices, (p, a, b), v);
  }

  lemma PutStatusIsOverlay(s: StoreState, p: string, v: string)
    ensures s.PutStatus(p, v) == Overlay(s, Empty.PutStatus(p, v))
    ensures WritesOnly(Empty.PutStatus(p, v), p, {StatusCat})
  {
    OverlayEmpty(s);
    MapUpdateIsUnion(s.status, p, v);
  }

  /** The store itself: one map field per category, each written with an
      unconditional overwrite. */
  class CloudInfoStore {
    var attributes: map<AttrKey, AttrValues>
    var zones: map<ZoneKey, seq<string>>
    var regions: map<RegionKey, map<string, string>>
    var services: map<string, seq<Service>>
    var vms: map<RegionalKey, seq<VmInfo>>
    var prices: map<PriceKey, Price>
    var images: map<RegionalKey, seq<Image>>
    var versions: map<RegionalKey, seq<string>>
    var status: map<string, string>

    function Snapshot(): StoreState
      reads this
    {
      StoreState(attributes, zones, regions, services, vms, prices, images, versions, status)
    }

    constructor ()
      ensures Snapshot() == Empty
    {
      attributes, zones, regions, services := map[], map[], map[], map[];
      vms, prices, images, versions, status := map[], map[], map[], map[], map[];
    }

    method StoreAttribute(p: string, s: string, a: string, v: AttrValues)
      modifies this
      ensures Snapshot() == old(Snapshot()).PutAttribute(p, s, a, v)
    {
      attributes := attributes[(p, s, a) := v];
    }

    // Zones, regions and services are part of the store's interface, but the
    // scraper never writes them: the next three methods stand for the store's
    // other writers, which are not part of this model. A read of these
    // categories through the facade succeeds only after one of them ran.

    method StoreZones(p: string, r: string, v: seq<string>)
      modifies this
      ensures Snapshot() == old(Snapshot()).PutZones(p, r, v)
    {
      zones := zones[(p, r) := v];
    }

    method StoreRegions(p: string, s: string, v: map<string, string>)
      modifies this
      ensures Snapshot() == old(Snapshot()).PutRegions(p, s, v)
    {
      regions := regions[(p, s) := v];
    }

    method StoreServices(p: string, v: seq<Service>)
      modifies this
      ensures Snapshot() == old(Snapshot()).PutServices(p, v)
    {
      services := services[p := v];
    }

    method StoreVm(p: string, s: string, r: string, v: seq<VmInfo>)
      modifies this
      ensures Snapshot() == old(Snapshot()).PutVm(p, s, r, v)
    {
      vms := vms[(p, s, r) := v];
    }

    method StorePrice(p: string, r: string, t: string, v: Price)
      modifies this
      ensures Snapshot() == old(Snapshot()).PutPrice(p, r, t, v)
    {
      prices := prices[(p, r, t) := v];
    }

    method StoreImage(p: string, s: string, r: string, v: seq<Image>)
      modifies this
      ensures Snapshot() == old(Snapshot()).PutImage(p, s, r, v)
    {
      images := images[(p, s, r) := v];
    }

    method StoreVersion(p: string, s: string, r: string, v: seq<string>)
      modifies this
      ensures Snapshot() == old(Snapshot()).PutVersion(p, s, r, v)
    {
      versions := versions[(p, s, r) := v];
    }

    method StoreStatus(p: string, v: string)
      modifies this
      ensures Snapshot() == old(Snapshot()).PutStatus(p, v)
    {
      status := status[p := v];
    }
  }
}
