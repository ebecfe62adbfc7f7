/** Values shared by the scraping pipeline and the caching facade of cloudinfo:
    the provider data that is scraped and cached, and the CloudInfoer capability
    that a provider plugs in. */
module CloudInfoTypes {

  datatype Option<+T> = None | Some(value: T)

  /** An error returned by a provider's CloudInfoer; its text is opaque here. */
  datatype Error = Error(message: string)

  /** A Go call that returns `(value, error)`. The scraping code sometimes goes on
      using the value after an error, so both halves are kept. A nil slice or map
      is the empty one: ranging over it does nothing. */
  datatype Response<+T> = Response(value: T, err: Option<Error>)

  /** Spot price per availability zone. Prices are kept as reals; the model
      never does floating-point arithmetic on them. */
  type SpotPriceInfo = map<string, real>

  datatype Price = Price(onDemandPrice: real, spotPrice: SpotPriceInfo)

  datatype VmInfo = VmInfo(
    instanceType: string,
    onDemandPrice: real,
    spotPrice: SpotPriceInfo,
    cpus: real,
    mem: real,
    gpus: real,
    ntwPerf: string,
    ntwPerfCat: string,
    zones: seq<string>,
    attributes: map<string, string>,
    currentGen: bool)

  datatype AttrValue = AttrValue(value: real)

  type AttrValues = seq<AttrValue>

  datatype Image = Image(name: string)

  /** A service offered by a provider; `name` is what `ServiceName()` returns. */
  datatype Service = Service(name: string)

  datatype Provider = Provider(name: string, services: seq<Service>)

  /** Go's zero value `Provider{}`. */
  const ZeroProvider := Provider("", [])

  /** The attribute names of the CPU and memory attributes. */
  const Cpu := "cpu"
  const Memory := "memory"

  /** The bulk price snapshot: outer key, then instance type, then price. */
  type PriceTable = map<string, map<string, Price>>

  /** A provider's CloudInfoer, as the fixed responses it gives to each call.
      Calls that take arguments are total functions of their arguments. */
  datatype Infoer = Infoer(
    initialize: Response<PriceTable>,
    services: Response<seq<Service>>,
    cpuAttrName: string,
    memoryAttrName: string,
    attributeValues: (string, string) -> Response<AttrValues>,
    regions: string -> Response<map<string, string>>,
    products: (string, string) -> Response<seq<VmInfo>>,
    hasImages: bool,
    serviceImages: (string, string) -> Response<seq<Image>>,
    versions: (string, string) -> Response<seq<string>>,
    hasShortLivedPriceInfo: bool,
    currentPrices: string -> Response<map<string, Price>>)

  /** `o` lists every element of `ks` exactly once: one order in which Go's
      `range` may visit the keys of a map whose key set is `ks`. */
  ghost predicate IsEnumeration(o: seq<string>, ks: set<string>) {
    && (forall x :: x in o <==> x in ks)
    && (forall i, j :: 0 <= i < j < |o| ==> o[i] != o[j])
  }

  /** Some enumeration of `ks`, for the iterations a run never reaches. */
  ghost function AnyOrder(ks: set<string>): (o: seq<string>)
    ensures IsEnumeration(o, ks)
    decreases ks
  {
    if ks == {} then []
    else
      var x :| x in ks;
      [x] + AnyOrder(ks - {x})
  }

  /** Enumerations of disjoint key sets concatenate to an enumeration of their union. */
  lemma EnumerationConcat(a: seq<string>, ka: set<string>, b: seq<string>, kb: set<string>)
    requires IsEnumeration(a, ka) && IsEnumeration(b, kb) && ka !! kb
    ensures IsEnumeration(a + b, ka + kb)
  {
    forall i, j | 0 <= i < j < |a + b| ensures (a + b)[i] != (a + b)[j] {
      if j >= |a| && i < |a| {
        assert (a + b)[i] in ka && (a + b)[j] in kb;
      }
    }
  }

  /** Dropping the first key of an enumeration enumerates the other keys. */
  lemma EnumerationTail(o: seq<string>, ks: set<string>)
    requires IsEnumeration(o, ks) && o != []
    ensures IsEnumeration(o[1..], ks - {o[0]})
  {
    forall x ensures x in o[1..] <==> x in ks - {o[0]} {
      if x in o[1..] {
        var j :| 0 <= j < |o[1..]| && o[1..][j] == x;
        assert o[j + 1] == x;
      }
    }
  }

  /** An enumeration has exactly one element per key. */
  lemma {:induction false} EnumerationSize(o: seq<string>, ks: set<string>)
    requires IsEnumeration(o, ks)
    ensures |o| == |ks|
    decreases |o|
  {
    if o == [] {
      assert forall x :: x !in ks;
    } else {
      assert o[0] in ks;
      EnumerationTail(o, ks);
      EnumerationSize(o[1..], ks - {o[0]});
    }
  }
}
