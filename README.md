# Cloud info scraping and caching, modelled in Dafny

This project models the core of a service that collects cloud-provider metadata and serves it from a cache. The metadata covers instance types, prices, attribute values, images and versions.

It has three parts.

- **Per-provider scraping manager** (`Scrape.ScrapingManager`). It works through one provider's "infoer", the provider's data source:
  - `initialize` writes the bulk price snapshot;
  - per service, it writes attribute values;
  - per service and region, it writes products, images and versions;
  - it stamps the provider's status;
  - on the short-lived schedule, it rewrites current prices region by region.
- **Scraping driver** (`Scrape.ScrapingDriver`). It builds one manager per provider. Each tick it picks the managers to run: all of them for a full refresh, and only those whose infoer reports short-lived prices for the price refresh.
- **Caching facade** (`CloudInfo.CachingCloudInfo`). It answers reads from the store only, with a "… not yet cached" error on a miss. It also has the small helpers `floatValues`, `IsBurst`, `Contains`, `Attributes` and `CreateString`.

## How the model is built

- **The store.** It is modelled twice.
  - `ProductStore.StoreState` is a value: nine maps, one per category, keyed as the store keys them.
  - `ProductStore.CloudInfoStore` is a class whose `StoreX` methods update those maps in place.
  - `Snapshot()` turns the object into the value.
- **Specification functions.** Each step of the scraper is a function in `ScrapeSpec`. It maps the store before the step to the store after it, paired with the error the step returns (`Outcome`).
- **Methods.** Each method of `ScrapingManager` is proved to leave `store.Snapshot()` equal to the corresponding `ScrapeSpec` function applied to the old snapshot: the function of the same name, or `RegionPriceWrites` for `StoreRegionPrices`. Each also returns the same error.
- **`(value, error)` results.** An infoer is a record of responses. A Go `(value, error)` result is a `Response` with both parts. Where the Go code goes on with the value after an error, so does the model: `initialize`, `GetServices`, `GetRegions("compute")` and `GetCurrentPrices`.
- **Map iteration order.** Go's `range` over a map visits keys in an unspecified order. The methods pick keys with `:|` and return the ghost order they used. The specification functions take that order as a parameter (`ValidOrders`). Most lemmas hold for every order. Where the order shows in the result, the lemma says so (`ScrapeIdempotent`, `ScrapeCycleProperties`).
- **Properties.**
  - `ScrapeProperties` shows that every step only patches entries owned by its own provider, in a fixed set of categories. From this it proves:
    - isolation between providers;
    - idempotence;
    - commutation of two providers' refreshes;
    - what a full cycle does to prices and status.
  - `ScrapeStepProperties` gives closed forms:
    - for the attribute step, which stops at the first failing call;
    - for the region loop, which is order-independent when every region succeeds and stops at the first failure otherwise;
    - for the short-lived price refresh, which gives the same store for every order of regions.
  - `ScrapeCycleProperties` lifts these to a whole cycle:
    - what a cycle stores when every call succeeds;
    - that the visit order does not matter when every region succeeds;
    - a concrete case where it does matter, because a region fails.
- **The store's other writers.** The scraper never writes zones, regions or services. The store methods `StoreZones`, `StoreRegions` and `StoreServices` stand for the store's other writers, which are not part of this model.

### Where the code and its tests differ

The model follows the code in each case.

- **Region loop key.** `scrapeServiceRegionInfo` passes the KEYS of the region map as the region id (pkg/cloudinfo/scrape.go:157). `scrapePricesInAllRegions` does the same (line 247). The test infoer's `GetRegions` returns a map from display name to region id (pkg/cloudinfo/cloudinfo_test.go:107-111). So with such an infoer, the code stores products under the display name, not under the id.
- **`initialize` key roles.** `initialize` uses the outer key of the snapshot as the region and the inner key as the instance type (scrape.go:55-57). The model does the same.
- **Regions error in the price refresh.** `scrapePricesInAllRegions` logs a regions error and still iterates the map it got back (scrape.go:243-250). The refresh launches no task only when that map is empty. `ScrapeSpec.ComputeRegions` takes the returned value whatever the error.
- **Facade `GetRegions`.** It reads the store only (pkg/cloudinfo/cloudinfo.go:159-165). One test expects the infoer's regions instead (pkg/cloudinfo/cloudinfo_test.go:176-210). The model follows the code.
- **Listings are never written by the scraper.** It writes no services, regions or zones. So `GetProvider` succeeds only for entries some other writer stored; `ScrapeKeepsListings` and `CloudInfo.ProviderNotListedByScrape` state this.

## Model

| member | source | states |
|---|---|---|
| ScrapeSpec.PriceWrites | pkg/cloudinfo/scrape.go:51-60 | the entries a bulk price table gives a provider: exactly one key (provider, region, instance type) per region and instance type in the table, holding that table's price |
| ScrapeSpec.RegionPriceWrites | pkg/cloudinfo/scrape.go:223-225 | the entries one region's current prices give: exactly the keys (provider, region, t) for each instance type t in the region's map, with its price |
| ScrapeSpec.PriceWritesInsert | pkg/cloudinfo/scrape.go:55-60 | adding one region to a price table adds exactly that region's entries to the writes |
| ScrapeSpec.ScrapeRegionsAppend | pkg/cloudinfo/scrape.go:157-173 | visiting regions a then b is the region loop over a, continued over b from its store, unless a returned an error |
| ScrapeSpec.ScrapeServiceRegionInfoAppend | pkg/cloudinfo/scrape.go:148-175 | the per-service loop over services a then b composes the same way |
| Scrape.ScrapingManager.constructor | pkg/cloudinfo/scrape.go:270-280 | a manager holds its provider name, its infoer and the shared store |
| Scrape.ScrapingManager.StoreRegionPrices | pkg/cloudinfo/scrape.go:223-225 | storing a region's price map adds exactly that region's price entries and changes nothing else |
| Scrape.ScrapingManager.Initialize | pkg/cloudinfo/scrape.go:42-62 | the store afterwards has every entry of the bulk snapshot under the provider, including the value returned with an error; nothing else changes |
| Scrape.ScrapingManager.ScrapeServiceAttributes | pkg/cloudinfo/scrape.go:64-86 | for each service, and each of the infoer's cpu and memory attribute names, the values are stored in order; the first failing call stops the loop and its error is returned |
| Scrape.ScrapingManager.ScrapeServiceRegionProducts | pkg/cloudinfo/scrape.go:88-106 | the region's products are stored under (provider, service, region), or the failure is returned and nothing is stored |
| Scrape.ScrapingManager.ScrapeServiceRegionImages | pkg/cloudinfo/scrape.go:108-122 | images are fetched and stored only when the infoer reports images (`HasImages()`, one flag for every service); a failure returns an error and stores nothing |
| Scrape.ScrapingManager.ScrapeServiceRegionVersions | pkg/cloudinfo/scrape.go:124-138 | the region's versions are stored, or the failure is returned and nothing is stored |
| Scrape.ScrapingManager.ScrapeRegion | pkg/cloudinfo/scrape.go:159-171 | products, then images, then versions for one region; the first failure is returned tagged with its step and the later steps do not run |
| Scrape.ScrapingManager.ScrapeServiceRegionInfo | pkg/cloudinfo/scrape.go:140-176 | the store and error equal the region loop over each service, for the order of regions actually visited, and that order enumerates each service's region keys; a regions failure or a region failure ends the whole loop |
| Scrape.ScrapingManager.UpdateStatus | pkg/cloudinfo/scrape.go:178-182 | the provider's status becomes the given stamp; nothing else changes |
| Scrape.ScrapingManager.ScrapeServiceInformation | pkg/cloudinfo/scrape.go:185-207 | attributes, then region info, run over the services returned even with an error; their errors are only logged, and the status is stamped at the end |
| Scrape.ScrapingManager.Scrape | pkg/cloudinfo/scrape.go:256-268 | a full cycle is initialize followed by the service information step |
| Scrape.ScrapingManager.ScrapePricesInRegion | pkg/cloudinfo/scrape.go:209-228 | the region's current prices (the returned map even after an error) are stored; nothing else changes |
| Scrape.ScrapingManager.ScrapePricesInAllRegions | pkg/cloudinfo/scrape.go:230-253 | every key of the compute regions map gets its current prices stored, whatever order the regions are visited in |
| Scrape.ScrapingDriver.constructor | pkg/cloudinfo/scrape.go:320-333 | one manager per infoer; every provider has a manager and every manager a provider; each manager holds its own infoer and the shared store; no provider appears twice |
| Scrape.ScrapingDriver.RenewAll | pkg/cloudinfo/scrape.go:302-306 | one full-refresh task per manager, in order |
| Scrape.ScrapingDriver.RenewShortLived | pkg/cloudinfo/scrape.go:308-318 | a price-refresh task exactly for the managers whose infoer has short-lived prices, and no other task; no task repeats when the managers are distinct, as the driver's constructor makes them (distinct providers) |
| Scrape.ShortLivedSpec | pkg/cloudinfo/scrape.go:308-318 | the selection has no more tasks than there are managers, and contains a task iff it is a price refresh of a listed manager with short-lived prices |
| Scrape.ShortLivedDistinct | pkg/cloudinfo/scrape.go:308-318 | for distinct managers, no two tasks of the selection are equal: at most one price refresh per manager |
| ScrapeProperties.InitializePatch | pkg/cloudinfo/scrape.go:51-60 | initialize overlays the bulk price entries of its own provider onto the store and writes only prices |
| ScrapeProperties.ServiceAttributesPatch | pkg/cloudinfo/scrape.go:74-84 | one service's attribute loop patches only this provider's attribute entries |
| ScrapeProperties.ScrapeServiceAttributesPatch | pkg/cloudinfo/scrape.go:64-86 | the attribute step patches only this provider's attribute entries, with the same error on every store |
| ScrapeProperties.ProductsPatch | pkg/cloudinfo/scrape.go:88-106 | the products step patches only this provider's VM entries |
| ScrapeProperties.ImagesPatch | pkg/cloudinfo/scrape.go:108-122 | the images step patches only this provider's image entries |
| ScrapeProperties.VersionsPatch | pkg/cloudinfo/scrape.go:124-138 | the versions step patches only this provider's version entries |
| ScrapeProperties.ScrapeRegionPatch | pkg/cloudinfo/scrape.go:159-171 | one region patches only this provider's VM, image and version entries |
| ScrapeProperties.ScrapeRegionsPatch | pkg/cloudinfo/scrape.go:157-173 | the region loop does the same, with an error that does not depend on the store |
| ScrapeProperties.ScrapeServiceRegionInfoPatch | pkg/cloudinfo/scrape.go:140-176 | the whole region-info step does the same |
| ScrapeProperties.ScrapePatch | pkg/cloudinfo/scrape.go:256-268 | a full cycle overlays a fixed patch onto the store, and the patch holds only this provider's entries of prices, attributes, VMs, images, versions and status |
| ScrapeProperties.ScrapeIsolation | pkg/cloudinfo/scrape.go:256-268 | a full cycle of one provider leaves every other provider's entries unchanged |
| ScrapeProperties.ScrapeKeepsListings | pkg/cloudinfo/scrape.go:185-207 | a full cycle leaves the services, regions and zones listings unchanged |
| ScrapeProperties.ScrapeIdempotent | pkg/cloudinfo/scrape.go:256-268 | repeating a full cycle with the same infoer responses, the same stamp and the same region visit orders leaves the store as one cycle did |
| ScrapeProperties.ScrapesCommute | pkg/cloudinfo/scrape.go:302-306 | full cycles of two different providers, launched together by the driver, give the same store in either order |
| ScrapeProperties.ScrapeStampsStatus | pkg/cloudinfo/scrape.go:185-207 | after a full cycle the provider's status is the stamp whatever failed, and the prices are the old prices overwritten by the bulk snapshot |
| ScrapeStepProperties.FirstFailure | pkg/cloudinfo/scrape.go:73-85 | the index of the first attribute call that fails: every earlier call succeeds, and the call at that index fails unless the index is the end |
| ScrapeStepProperties.ServiceAttributesRunsCalls | pkg/cloudinfo/scrape.go:74-84 | one service's loop is the flat run of its (service, attribute) calls |
| ScrapeStepProperties.ScrapeServiceAttributesRunsCalls | pkg/cloudinfo/scrape.go:64-86 | the nested attribute loops are the flat run of all calls, services in order |
| ScrapeStepProperties.RunCallsStopsAtFirstFailure | pkg/cloudinfo/scrape.go:76-82 | a run of calls stores the values of exactly the calls before the first failure, and returns that failure |
| ScrapeStepProperties.AttributesStopAtFirstFailure | pkg/cloudinfo/scrape.go:64-86 | the attribute step's store is the old attributes plus the values of every call before the first failing one; the error names that call's service and attribute, or is none when no call fails |
| ScrapeStepProperties.ScrapeRegionSucceeds | pkg/cloudinfo/scrape.go:159-171 | one region returns no error iff its products, images (when the infoer reports images: `HasImages()`, one flag for every service) and versions all succeed, and then it stores exactly those three entries |
| ScrapeStepProperties.ScrapeRegionsAllSucceed | pkg/cloudinfo/scrape.go:157-173 | when every visited region succeeds, the loop stores the entries of exactly the set of visited regions and returns no error |
| ScrapeStepProperties.ScrapeRegionsOrderIrrelevant | pkg/cloudinfo/scrape.go:157 | when every region succeeds, any two iteration orders of the region keys give the same store |
| ScrapeStepProperties.ScrapeRegionsFirstFailure | pkg/cloudinfo/scrape.go:157-173 | the loop stores the regions before the first failing one in the visit order, plus what that region stored before failing, and returns an error |
| ScrapeStepProperties.RegionListingFailureStops | pkg/cloudinfo/scrape.go:148-155 | when a service's region listing fails, the step returns that RegionsFailed error and later services are not scraped |
| ScrapeStepProperties.PricesInRegionsWrites | pkg/cloudinfo/scrape.go:243-246 | refreshing regions one after another, in any enumeration of a set, overwrites exactly the current prices of that set |
| ScrapeStepProperties.AllRegionsAnyOrder | pkg/cloudinfo/scrape.go:243-251 | the per-region refreshes, run in any order of the compute region keys, give the same store as the short-lived refresh |
| ScrapeStepProperties.AllRegionsWrites | pkg/cloudinfo/scrape.go:230-253 | the short-lived refresh changes only this provider's prices, and writes a value for exactly each (region, instance type) it got back |
| ScrapeCycleProperties.RegionInfoOrderIrrelevant | pkg/cloudinfo/scrape.go:148-175 | when every listed region of every service succeeds, the region-info step gives the same store and error for any visit orders |
| ScrapeCycleProperties.ScrapeOrderIrrelevant | pkg/cloudinfo/scrape.go:256-268 | under the same condition, a full cycle gives the same store for any visit orders |
| ScrapeCycleProperties.ScrapeIdempotentAnyOrders | pkg/cloudinfo/scrape.go:256-268 | under the same condition, a second cycle leaves the store as the first did, whatever order each visits the regions in |
| ScrapeCycleProperties.ScrapeNotIdempotentAcrossOrders | pkg/cloudinfo/scrape.go:157-171 | with regions "A" and "B" where B's products fail, a cycle that visits B first followed by one that visits A first changes the store: the second stores A's VMs |
| ScrapeCycleProperties.AttributesAllSucceed | pkg/cloudinfo/scrape.go:64-86 | when every attribute call succeeds, the step stores the value of every (service, attribute) call and returns no error |
| ScrapeCycleProperties.RegionInfoKeepsAttributes | pkg/cloudinfo/scrape.go:140-176 | the region-info step never changes attribute entries |
| ScrapeCycleProperties.RegionInfoAllSucceed | pkg/cloudinfo/scrape.go:140-176 | when every listing and every region succeeds, the step returns no error, keeps every region entry already stored, and stores the products, images (when the provider has any) and versions of every region of every service |
| ScrapeCycleProperties.ScrapeAllSucceed | pkg/cloudinfo/scrape.go:256-268 | a cycle in which every call succeeds leaves the status stamped, every bulk price, every attribute value, and the products, images (when the provider has any) and versions of every region of every service stored |
| CloudInfo.Message | pkg/cloudinfo/cloudinfo.go:79-236 | the text of each facade error: "<what> not yet cached", "unsupported provider", "no supported services for provider", "could not create product infoer" |
| CloudInfo.MessageTellsKind | pkg/cloudinfo/cloudinfo.go:79-236 | a text ends with " not yet cached" iff the error is a cache miss, and the other texts identify their kind |
| CloudInfo.FloatValues | pkg/cloudinfo/cloudinfo.go:37-43 | the result has one number per attribute value, the value's own, in order |
| CloudInfo.NewCachingCloudInfo | pkg/cloudinfo/cloudinfo.go:77-89 | creation fails exactly when the store or the infoer map is missing; otherwise the facade holds both |
| CloudInfo.CachingCloudInfo.GetProviders | pkg/cloudinfo/cloudinfo.go:92-110 | one entry per supported provider, in map order; a provider with cached services is listed with them, one without is listed as the zero provider |
| CloudInfo.CachingCloudInfo.GetProvider | pkg/cloudinfo/cloudinfo.go:113-132 | an unsupported provider is an error; a supported one without cached services is "no supported services"; otherwise the provider with its cached services |
| CloudInfo.CachingCloudInfo.GetAttributes | pkg/cloudinfo/cloudinfo.go:135-137 | the supported attributes are cpu and memory, in that order |
| CloudInfo.CachingCloudInfo.GetAttrValues | pkg/cloudinfo/cloudinfo.go:140-147 | a hit iff the attribute is cached, giving its values as numbers in order; a miss names provider, service and attribute |
| CloudInfo.CachingCloudInfo.GetZones | pkg/cloudinfo/cloudinfo.go:150-156 | a hit iff the region's zones are cached, giving them; a miss names provider and region |
| CloudInfo.CachingCloudInfo.GetRegions | pkg/cloudinfo/cloudinfo.go:159-165 | a hit iff the service's regions are cached, giving them; a miss names provider and service, under the key "services" |
| CloudInfo.CachingCloudInfo.GetServices | pkg/cloudinfo/cloudinfo.go:167-173 | a hit iff the provider's services are cached, giving them; a miss names the provider |
| CloudInfo.CachingCloudInfo.GetProductDetails | pkg/cloudinfo/cloudinfo.go:176-206 | a hit iff the region's VMs are cached, giving one detail per VM in order: the VM, and the zones of the price cached for (provider, region, instance type) with their spot prices, or no zones when no price is cached; a miss names provider, service and region |
| CloudInfo.SpotInfo | pkg/cloudinfo/cloudinfo.go:195-198 | the spot list has exactly one entry per zone of a cached price's spot map, with that zone's price |
| CloudInfo.CachingCloudInfo.GetStatus | pkg/cloudinfo/cloudinfo.go:209-214 | a hit iff the provider's status is cached, giving it; a miss names the provider |
| CloudInfo.CachingCloudInfo.GetServiceImages | pkg/cloudinfo/cloudinfo.go:217-227 | a hit iff the region's images are cached, giving them; a miss names provider, service and region |
| CloudInfo.CachingCloudInfo.GetVersions | pkg/cloudinfo/cloudinfo.go:230-239 | a hit iff the region's versions are cached, giving them; a miss names provider, service and region |
| CloudInfo.NothingCachedInEmptyStore | pkg/cloudinfo/cloudinfo.go:113-173 | over an empty store every read is "not yet cached", and a supported provider has no supported services |
| CloudInfo.StatusAfterScrape | pkg/cloudinfo/cloudinfo.go:209-214 | after a full scraping cycle the facade reports the cycle's stamp as the provider's status |
| CloudInfo.ProviderNotListedByScrape | pkg/cloudinfo/cloudinfo.go:113-132 | a provider whose services were not cached before a scraping cycle still cannot be read through GetProvider after it |
| CloudInfo.IsBurst | pkg/cloudinfo/cloudinfo.go:72-74 | a VM is burstable iff its instance type starts with "t" or "T" |
| CloudInfo.Contains | pkg/cloudinfo/cloudinfo.go:242-249 | true iff the string is an element of the slice |
| CloudInfo.Attributes | pkg/cloudinfo/cloudinfo.go:252-260 | the map has exactly the keys cpu, memory and network performance category, holding the three given strings |
| CloudInfo.ConcatAppend | pkg/cloudinfo/cloudinfo.go:263-269 | concatenating two key lists gives the concatenation of their strings |
| CloudInfo.ConcatPlacesEachKey | pkg/cloudinfo/cloudinfo.go:263-269 | each key appears in the concatenation at the offset given by the total length of the keys before it |
| CloudInfo.CreateString | pkg/cloudinfo/cloudinfo.go:263-269 | the result is the keys joined in order with no separator |

## Left out

- ScrapeIdempotent: promised only for a repeated cycle that visits the regions in the same orders. Go picks a new map order on every cycle. When some region fails, a different order can store different entries (`ScrapeNotIdempotentAcrossOrders`). For any orders, idempotence is proved only when every listed region succeeds (`ScrapeIdempotentAnyOrders`).
- Concurrency is not modelled.
  - The goroutines and the `sync.WaitGroup` of the short-lived refresh are not modelled: the per-region refreshes run one after another. Each region writes keys disjoint from the others', and `AllRegionsAnyOrder` shows that every order gives the same store.
  - Races between the driver's two loops are not modelled; the driver returns the tasks it would launch instead of launching them. Two providers' full cycles, run one after the other, are shown to give the same store in either order (`ScrapesCommute`). Their writes interleaving is not modelled.
- `StartScraping` and the periodic executor are not modelled: they are scheduling loops over time. `renewalInterval` is only stored.
- Tracing spans, logging and metrics are dropped, including the on-demand price gauge in `initialize`. They do not change the store.
- The clock is not modelled. `updateStatus`'s millisecond timestamp is the `stamp` parameter.
- `context.Context` arguments are dropped.
- The concrete store, its locking and its TTL expiry are not modelled. The store interface definition is not part of this model. The store is nine plain maps with last-write-wins puts.
- Provider implementations are not modelled. An infoer is a fixed record of the responses its calls return.
- Error wrapping is modelled only in part. emperror's wrapped messages and key/value contexts become tagged errors: `ScrapeError` in the scraper, and `CloudInfoError` (with its context pairs) in the facade.
- `float64` values are modelled as `real`.
- `CloudInfo.IsBurst`: upper-cases ASCII letters only. Go's `strings.ToUpper` also maps non-ASCII letters, and no non-ASCII letter upper-cases to "T".
- The types file is not part of this model.
  - The values of the `Cpu` and `Memory` constants are taken to be "cpu" and "memory".
  - `NewProvider(name)` is taken to be a provider with that name and no services.
  - The product-details and zone-price constructors are taken to copy the VM and the (zone, price) pair.
- `NewScrapingManager`'s logger, metrics and tracer fields are dropped with the services they serve.
