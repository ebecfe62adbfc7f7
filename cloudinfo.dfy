/** The caching facade over the store (`cachingCloudInfo`) and the small
    helpers next to it. Every read answers from the store only: a hit returns
    the cached value, a miss a "not yet cached" error naming the keys. */
module CloudInfo {
  import opened CloudInfoTypes
  import opened ProductStore
  import ScrapeSpec
  import ScrapeProperties

  /** The errors of the facade, each with the context the Go code attaches. */
  datatype CloudInfoError =
    | NotYetCached(what: string, context: seq<(string, string)>)
    | UnsupportedProvider(provider: string)
    | NoSupportedServices(provider: string)
    | CouldNotCreate

  /** The text of the Go error. */
  function Message(e: CloudInfoError): (m: string)
    ensures e.NotYetCached? ==> m == e.what + " not yet cached"
    ensures e.UnsupportedProvider? ==> m == "unsupported provider"
    ensures e.NoSupportedServices? ==> m == "no supported services for provider"
    ensures e.CouldNotCreate? ==> m == "could not create product infoer"
  {
    match e
    case NotYetCached(what, _) => what + " not yet cached"
    case UnsupportedProvider(_) => "unsupported provider"
    case NoSupportedServices(_) => "no supported services for provider"
    case CouldNotCreate => "could not create product infoer"
  }

  /** Whether `m` ends with `suffix`. */
  predicate EndsWith(m: string, suffix: string) {
    |m| >= |suffix| && m[|m| - |suffix|..] == suffix
  }

  /** The text tells the kind of error: only a cache miss ends with
      " not yet cached", and the other three texts differ from each other. */
  lemma MessageTellsKind(e: CloudInfoError, f: CloudInfoError)
    ensures EndsWith(Message(e), " not yet cached") <==> e.NotYetCached?
    ensures !e.NotYetCached? && !f.NotYetCached? && Message(e) == Message(f) ==>
      (e.UnsupportedProvider? <==> f.UnsupportedProvider?) && (e.CouldNotCreate? <==> f.CouldNotCreate?)
  {
    var sfx := " not yet cached";
    if e.NotYetCached? {
      assert (e.what + sfx)[|e.what + sfx| - |sfx|..] == sfx;
    } else {
      var m := Message(e);
      assert m[|m| - 1] == 'r' != sfx[|sfx| - 1];
    }
  }

  datatype Result<+T> = Ok(value: T) | Err(error: CloudInfoError)

  /** A spot price of one zone, as listed in product details. */
  datatype ZonePrice = ZonePrice(zone: string, price: real)

  /** A cached VM with the spot prices of its cached price. */
  datatype ProductDetails = ProductDetails(vm: VmInfo, spotInfo: seq<ZonePrice>)

  function Zones(si: seq<ZonePrice>): (zs: seq<string>)
    ensures |zs| == |si| && forall i :: 0 <= i < |si| ==> zs[i] == si[i].zone
  {
    seq(|si|, i requires 0 <= i < |si| => si[i].zone)
  }

  /** `si` lists every zone of `m` once, with its price. */
  ghost predicate ListsSpotPrices(si: seq<ZonePrice>, m: SpotPriceInfo) {
    && IsEnumeration(Zones(si), m.Keys)
    && forall i :: 0 <= i < |si| ==> si[i].zone in m && si[i].price == m[si[i].zone]
  }

  /** The spot information of the VM of type `t` in `region`: the zones of its
      cached price, or none when no price is cached. */
  ghost predicate SpotInfoFor(si: seq<ZonePrice>, prices: map<PriceKey, Price>, p: string, region: string, t: string) {
    if (p, region, t) in prices then ListsSpotPrices(si, prices[(p, region, t)].spotPrice) else si == []
  }

  /** `AttrValues.floatValues`: the values, in order, in a slice of the same length. */
  method FloatValues(v: AttrValues) returns (r: seq<real>)
    ensures |r| == |v|
    ensures forall i :: 0 <= i < |v| ==> r[i] == v[i].value
  {
    var a := new real[|v|];
    for i := 0 to |v|
      invariant forall k :: 0 <= k < i ==> a[k] == v[k].value
    {
      a[i] := v[i].value;
    }
    r := a[..];
  }

  class CachingCloudInfo {
    const cloudInfoers: map<string, Infoer>
    const cloudInfoStore: CloudInfoStore

    constructor (infoers: map<string, Infoer>, ciStore: CloudInfoStore)
      ensures cloudInfoers == infoers && cloudInfoStore == ciStore
    {
      cloudInfoers := infoers;
      cloudInfoStore := ciStore;
    }

    function GetServices(provider: string): (r: Result<seq<Service>>)
      reads cloudInfoStore
      ensures r.Ok? <==> provider in cloudInfoStore.services
      ensures r.Ok? ==> r.value == cloudInfoStore.services[provider]
      ensures r.Err? ==> r.error == NotYetCached("services", [("provider", provider)])
    {
      if provider in cloudInfoStore.services then Ok(cloudInfoStore.services[provider])
      else Err(NotYetCached("services", [("provider", provider)]))
    }

    /** `GetProvider`: a configured provider with its cached services. */
    function GetProvider(provider: string): (r: Result<Provider>)
      reads cloudInfoStore
      ensures provider !in cloudInfoers ==> r == Err(UnsupportedProvider(provider))
      ensures provider in cloudInfoers && provider !in cloudInfoStore.services ==> r == Err(NoSupportedServices(provider))
      ensures r.Ok? <==> provider in cloudInfoers && provider in cloudInfoStore.services
      ensures r.Ok? ==> r.value == Provider(provider, cloudInfoStore.services[provider])
    {
      if provider !in cloudInfoers then Err(UnsupportedProvider(provider))
      else
        var services := GetServices(provider);
        if services.Err? then Err(NoSupportedServices(provider))
        else Ok(Provider(provider, services.value))
    }

    /** `GetProviders`: one entry per configured provider, in the order `range`
        visits them (`names`); a provider whose services are not cached gets
        the zero Provider. */
    method GetProviders() returns (providers: seq<Provider>, ghost names: seq<string>)
      ensures IsEnumeration(names, cloudInfoers.Keys)
      ensures |providers| == |names| == |cloudInfoers|
      ensures forall i :: 0 <= i < |names| ==>
        providers[i] == if names[i] in cloudInfoStore.services then Provider(names[i], cloudInfoStore.services[names[i]])
                        else ZeroProvider
      // the same, stated of the returned providers alone
      ensures forall pr :: pr in providers ==>
        pr == ZeroProvider || (pr.name in cloudInfoers && pr.name in cloudInfoStore.services
                               && pr == Provider(pr.name, cloudInfoStore.services[pr.name]))
      ensures forall pn :: pn in cloudInfoers && pn in cloudInfoStore.services ==>
        Provider(pn, cloudInfoStore.services[pn]) in providers
    {
      providers := [];
      names := [];
      var todo := cloudInfoers.Keys;
      while todo != {}
        invariant todo <= cloudInfoers.Keys
        invariant IsEnumeration(names, cloudInfoers.Keys - todo)
        invariant |providers| == |names|
        invariant forall i :: 0 <= i < |names| ==>
          providers[i] == if names[i] in cloudInfoStore.services then Provider(names[i], cloudInfoStore.services[names[i]])
                          else ZeroProvider
        decreases todo
      {
        var pn :| pn in todo;
        var r := GetProvider(pn);
        // on an error the Go code appends the zero Provider that GetProvider returned
        var provider := if r.Ok? then r.value else ZeroProvider;
        providers := providers + [provider];
        EnumerationConcat(names, cloudInfoers.Keys - todo, [pn], {pn});
        assert (cloudInfoers.Keys - todo) + {pn} == cloudInfoers.Keys - (todo - {pn});
        names := names + [pn];
        todo := todo - {pn};
      }
      assert cloudInfoers.Keys - todo == cloudInfoers.Keys;
      EnumerationSize(names, cloudInfoers.Keys);
    }

    /** `GetAttributes`: the names of the supported attributes. */
    function GetAttributes(): (r: seq<string>)
      ensures r == [Cpu, Memory]
    {
      [Cpu, Memory]
    }

    method GetAttrValues(provider: string, service: string, attribute: string) returns (r: Result<seq<real>>)
      ensures r.Ok? <==> (provider, service, attribute) in cloudInfoStore.attributes
      ensures r.Ok? ==> var v := cloudInfoStore.attributes[(provider, service, attribute)];
        |r.value| == |v| && forall i :: 0 <= i < |v| ==> r.value[i] == v[i].value
      ensures r.Err? ==> r.error == NotYetCached("attributes", [("provider", provider), ("service", service), ("attribute", attribute)])
    {
      if (provider, service, attribute) in cloudInfoStore.attributes {
        var values := FloatValues(cloudInfoStore.attributes[(provider, service, attribute)]);
        return Ok(values);
      }
      return Err(NotYetCached("attributes", [("provider", provider), ("service", service), ("attribute", attribute)]));
    }

    function GetZones(provider: string, region: string): (r: Result<seq<string>>)
      reads cloudInfoStore
      ensures r.Ok? <==> (provider, region) in cloudInfoStore.zones
      ensures r.Ok? ==> r.value == cloudInfoStore.zones[(provider, region)]
      ensures r.Err? ==> r.error == NotYetCached("zones", [("provider", provider), ("region", region)])
    {
      if (provider, region) in cloudInfoStore.zones then Ok(cloudInfoStore.zones[(provider, region)])
      else Err(NotYetCached("zones", [("provider", provider), ("region", region)]))
    }

    /** `GetRegions` reads the store only; the context key of its error is
        "services", as in the Go code. */
    function GetRegions(provider: string, service: string): (r: Result<map<string, string>>)
      reads cloudInfoStore
      ensures r.Ok? <==> (provider, service) in cloudInfoStore.regions
      ensures r.Ok? ==> r.value == cloudInfoStore.regions[(provider, service)]
      ensures r.Err? ==> r.error == NotYetCached("regions", [("provider", provider), ("services", service)])
    {
      if (provider, service) in cloudInfoStore.regions then Ok(cloudInfoStore.regions[(provider, service)])
      else Err(NotYetCached("regions", [("provider", provider), ("services", service)]))
    }

    /** `GetProductDetails`: one entry per cached VM of the region, in order,
        each with the spot prices of its cached price, if any. */
    method GetProductDetails(provider: string, service: string, region: string) returns (r: Result<seq<ProductDetails>>)
      ensures r.Err? <==> (provider, service, region) !in cloudInfoStore.vms
      ensures r.Err? ==> r.error == NotYetCached("vms", [("provider", provider), ("service", service), ("region", region)])
      ensures r.Ok? ==> var vms := cloudInfoStore.vms[(provider, service, region)];
        && |r.value| == |vms|
        && forall i :: 0 <= i < |vms| ==>
             && r.value[i].vm == vms[i]
             && SpotInfoFor(r.value[i].spotInfo, cloudInfoStore.prices, provider, region, vms[i].instanceType)
    {
      if (provider, service, region) !in cloudInfoStore.vms {
        return Err(NotYetCached("vms", [("provider", provider), ("service", service), ("region", region)]));
      }
      var vms := cloudInfoStore.vms[(provider, service, region)];
      var details: seq<ProductDetails> := [];
      for i := 0 to |vms|
        invariant |details| == i
        invariant forall k :: 0 <= k < i ==>
          && details[k].vm == vms[k]
          && SpotInfoFor(details[k].spotInfo, cloudInfoStore.prices, provider, region, vms[k].instanceType)
      {
        var vm := vms[i];
        var spotInfo: seq<ZonePrice> := [];
        if (provider, region, vm.instanceType) in cloudInfoStore.prices {
          var pr := cloudInfoStore.prices[(provider, region, vm.instanceType)];
          spotInfo := SpotInfo(pr.spotPrice);
        }
        details := details + [ProductDetails(vm, spotInfo)];
      }
      return Ok(details);
    }

    function GetStatus(provider: string): (r: Result<string>)
      reads cloudInfoStore
      ensures r.Ok? <==> provider in cloudInfoStore.status
      ensures r.Ok? ==> r.value == cloudInfoStore.status[provider]
      ensures r.Err? ==> r.error == NotYetCached("status", [("provider", provider)])
    {
      if provider in cloudInfoStore.status then Ok(cloudInfoStore.status[provider])
      else Err(NotYetCached("status", [("provider", provider)]))
    }

    function GetServiceImages(provider: string, service: string, region: string): (r: Result<seq<Image>>)
      reads cloudInfoStore
      ensures r.Ok? <==> (provider, service, region) in cloudInfoStore.images
      ensures r.Ok? ==> r.value == cloudInfoStore.images[(provider, service, region)]
      ensures r.Err? ==> r.error == NotYetCached("images", [("provider", provider), ("service", service), ("region", region)])
    {
      if (provider, service, region) in cloudInfoStore.images then Ok(cloudInfoStore.images[(provider, service, region)])
      else Err(NotYetCached("images", [("provider", provider), ("service", service), ("region", region)]))
    }

    function GetVersions(provider: string, service: string, region: string): (r: Result<seq<string>>)
      reads cloudInfoStore
      ensures r.Ok? <==> (provider, service, region) in cloudInfoStore.versions
      ensures r.Ok? ==> r.value == cloudInfoStore.versions[(provider, service, region)]
      ensures r.Err? ==> r.error == NotYetCached("versions", [("provider", provider), ("service", service), ("region", region)])
    {
      if (provider, service, region) in cloudInfoStore.versions then Ok(cloudInfoStore.versions[(provider, service, region)])
      else Err(NotYetCached("versions", [("provider", provider), ("service", service), ("region", region)]))
    }
  }

  /** The loop `for zone, price := range pr.SpotPrice` of `GetProductDetails`. */
  method SpotInfo(m: SpotPriceInfo) returns (si: seq<ZonePrice>)
    ensures ListsSpotPrices(si, m)
  {
    si := [];
    var todo := m.Keys;
    while todo != {}
      invariant todo <= m.Keys
      invariant ListsSpotPrices(si, m - todo)
      invariant forall i :: 0 <= i < |si| ==> si[i].zone in m && si[i].price == m[si[i].zone]
      decreases todo
    {
      var zone :| zone in todo;
      EnumerationConcat(Zones(si), (m - todo).Keys, [zone], {zone});
      assert Zones(si + [ZonePrice(zone, m[zone])]) == Zones(si) + [zone];
      assert (m - todo).Keys + {zone} == (m - (todo - {zone})).Keys;
      si := si + [ZonePrice(zone, m[zone])];
      todo := todo - {zone};
    }
    assert m - todo == m;
  }

  /** `NewCachingCloudInfo`; a Go nil store is `null`, a nil map `None`. */
  method NewCachingCloudInfo(ciStore: CloudInfoStore?, infoers: Option<map<string, Infoer>>)
    returns (r: Result<CachingCloudInfo>)
    ensures r.Ok? <==> ciStore != null && infoers.Some?
    ensures r.Ok? ==> r.value.cloudInfoStore == ciStore && r.value.cloudInfoers == infoers.value
    ensures r.Err? ==> r.error == CouldNotCreate
  {
    if infoers.None? || ciStore == null {
      return Err(CouldNotCreate);
    }
    var ci := new CachingCloudInfo(infoers.value, ciStore);
    return Ok(ci);
  }

  // ---------------------------------------------------------------------------
  // the facade and the scraper

  /** Before anything was scraped, every read is a "not yet cached" miss, and
      a configured provider has no supported services. */
  lemma NothingCachedInEmptyStore(ci: CachingCloudInfo, p: string, svc: string, region: string)
    requires ci.cloudInfoStore.Snapshot() == Empty
    ensures ci.GetServices(p).Err? && ci.GetZones(p, region).Err? && ci.GetRegions(p, svc).Err?
    ensures ci.GetStatus(p).Err? && ci.GetServiceImages(p, svc, region).Err? && ci.GetVersions(p, svc, region).Err?
    ensures p in ci.cloudInfoers ==> ci.GetProvider(p) == Err(NoSupportedServices(p))
  {
    assert ci.cloudInfoStore.services == map[] && ci.cloudInfoStore.zones == map[];
    assert ci.cloudInfoStore.regions == map[] && ci.cloudInfoStore.status == map[];
    assert ci.cloudInfoStore.images == map[] && ci.cloudInfoStore.versions == map[];
  }

  /** After a provider's cycle, its status reads as the cycle's stamp,
      whatever failed during the cycle. */
  lemma StatusAfterScrape(ci: CachingCloudInfo, s: StoreState, p: string, inf: Infoer,
                          orders: seq<seq<string>>, stamp: string)
    requires |orders| == |inf.services.value|
    requires ci.cloudInfoStore.Snapshot() == ScrapeSpec.Scrape(s, p, inf, orders, stamp)
    ensures ci.GetStatus(p) == Ok(stamp)
  {
    ScrapeProperties.ScrapeStampsStatus(s, p, inf, orders, stamp);
  }

  /** A cycle does not cache services, so it does not make a provider
      available to `GetProvider` that was not already. */
  lemma ProviderNotListedByScrape(ci: CachingCloudInfo, s: StoreState, p: string, inf: Infoer,
                                  orders: seq<seq<string>>, stamp: string)
    requires |orders| == |inf.services.value|
    requires p !in s.services
    requires ci.cloudInfoStore.Snapshot() == ScrapeSpec.Scrape(s, p, inf, orders, stamp)
    ensures ci.GetProvider(p).Err?
  {
    ScrapeProperties.ScrapeKeepsListings(s, p, inf, orders, stamp);
  }

  // ---------------------------------------------------------------------------
  // helpers

  /** ASCII upper-casing of one character. */
  function UpperChar(c: char): (u: char)
    ensures 'a' <= c <= 'z' ==> u as int == c as int - 32
    ensures !('a' <= c <= 'z') ==> u == c
  {
    if 'a' <= c <= 'z' then (c as int - 32) as char else c
  }

  function ToUpper(s: string): (u: string)
    ensures |u| == |s| && forall i :: 0 <= i < |s| ==> u[i] == UpperChar(s[i])
  {
    seq(|s|, i requires 0 <= i < |s| => UpperChar(s[i]))
  }

  /** `VmInfo.IsBurst`: the upper-cased type starts with "T", that is, the
      type's name starts with `t` or `T`. */
  function IsBurst(vm: VmInfo): (b: bool)
    ensures b <==> |vm.instanceType| > 0 && (vm.instanceType[0] == 't' || vm.instanceType[0] == 'T')
  {
    var t := vm.instanceType;
    assert |t| > 0 ==> ToUpper(t)[..1] == [UpperChar(t[0])];
    |ToUpper(t)| >= 1 && ToUpper(t)[..1] == "T"
  }

  /** `Contains`: whether some element of `slice` is `s`. */
  method Contains(slice: seq<string>, s: string) returns (r: bool)
    ensures r <==> s in slice
  {
    for i := 0 to |slice|
      invariant s !in slice[..i]
    {
      if slice[i] == s {
        return true;
      }
      assert slice[..i + 1] == slice[..i] + [slice[i]];
    }
    assert slice[..|slice|] == slice;
    return false;
  }

  /** The key of the network performance category in an attribute map. */
  const NetworkPerfCategory := "NetworkPerfCategory"

  /** `Attributes`: a map of exactly the three attribute keys. */
  method Attributes(cpu: string, memory: string, ntwPerfCat: string) returns (attributes: map<string, string>)
    ensures attributes.Keys == {Cpu, Memory, NetworkPerfCategory}
    ensures attributes[Cpu] == cpu && attributes[Memory] == memory && attributes[NetworkPerfCategory] == ntwPerfCat
  {
    attributes := map[];
    attributes := attributes[Cpu := cpu];
    attributes := attributes[Memory := memory];
    attributes := attributes[NetworkPerfCategory := ntwPerfCat];
  }

  /** The keys written one after the other. */
  function Concat(keys: seq<string>): string
    decreases |keys|
  {
    if keys == [] then "" else keys[0] + Concat(keys[1..])
  }

  lemma {:induction false} ConcatAppend(a: seq<string>, b: seq<string>)
    ensures Concat(a + b) == Concat(a) + Concat(b)
    decreases |a|
  {
    if a == [] {
      assert a + b == b;
    } else {
      assert (a + b)[0] == a[0] && (a + b)[1..] == a[1..] + b;
      ConcatAppend(a[1..], b);
    }
  }

  /** Key `i` sits in the result right after the keys before it. */
  lemma ConcatPlacesEachKey(keys: seq<string>, i: nat)
    requires i < |keys|
    ensures var start := |Concat(keys[..i])|;
      start + |keys[i]| <= |Concat(keys)| && Concat(keys)[start..start + |keys[i]|] == keys[i]
  {
    assert keys == keys[..i] + [keys[i]] + keys[i + 1..];
    ConcatAppend(keys[..i] + [keys[i]], keys[i + 1..]);
    ConcatAppend(keys[..i], [keys[i]]);
    assert Concat([keys[i]]) == keys[i] + Concat([]);
  }

  /** `CreateString`: the keys concatenated in order. */
  method CreateString(keys: seq<string>) returns (r: string)
    ensures r == Concat(keys)
  {
    r := "";
    for i := 0 to |keys|
      invariant r == Concat(keys[..i])
    {
      assert keys[..i + 1] == keys[..i] + [keys[i]];
      ConcatAppend(keys[..i], [keys[i]]);
      assert Concat([keys[i]]) == keys[i] + Concat([]);
      r := r + keys[i];
    }
    assert keys[..|keys|] == keys;
  }
}
