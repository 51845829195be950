# Profile lookup core, modelled in Dafny

The service behind `GET /api/lookup` turns a request such as
`?type=steam&id=99999999999999999` into a normalised profile
`{username, id, avatar}`. This project models the lookup core of that
Laravel application and proves properties of it.

- **Source strategies.** One strategy per provider:
  - Steam and Xbox Live, through the Tebex identity service;
  - Minecraft by UUID and Minecraft by player name, through Mojang;
  - the older unified Minecraft strategy.

  Each strategy validates its payload and stores the identifiers (`setPayload`). It derives the cache key `<tag>|<identifier>` (`getCacheKey`). It builds the upstream URL, calls it, translates the provider's not-found quirk into an error, and maps the provider's fields into the profile shape (`fetch`).
- **`ProfileService`.** The cache-aside orchestrator:
  1. validate through the source;
  2. serve a live cache entry;
  3. otherwise fetch, store the profile for one day, and return it.
- **`ExternalRequestService::get`.** The single upstream call:
  - a retrying HTTP client (3 tries, 5 s timeout, attempt × 100 ms backoff);
  - a connection failure becomes a request failure with status 500;
  - a failed status becomes a request failure carrying that status;
  - anything else is returned unchanged.
- **The edges.** These are:
  - the `ProfileSourceEnum` tags and the `strategy()` dispatch;
  - the request-level rules of `ProfileLookupRequest`;
  - the application's exception renderers (`bootstrap/app.php`);
  - the controller's own catch chain.

## Modules

- `Wrappers`: `Option`, `Result`, `Outcome`.
- `Php`: the PHP semantics the core relies on:
  - decimal printing of integers;
  - `FILTER_VALIDATE_INT` (optional sign, no leading zeros, 64-bit range);
  - decoded JSON bodies, with the reads (`$j[$key]`, `isset`, `.`) that PHP performs without a warning.
- `Validation`: the Laravel rules used here (`required`, `required_without`, `prohibits`, `integer`, `string`, `digits`, enum). It follows Laravel's rule of skipping a non-implicit rule on an absent or blank field. It computes the set of fields in error.
- `Domain`: the profile, the error kinds, and the namespaced key `<tag>|<identifier>` with its splitting.
- `ExternalRequest`: the client's retry loop over a scripted sequence of attempt outcomes, and the classification done by `get`.
- `RateLimiting`: per-key hit windows of Laravel's limiter. `RateLimiter` is a class whose `buckets` map is updated in place.
- `ProfileSourceEnum`: the tags, `from`, and `strategy()`.
- `IdentService`, `Mojang`: response shapes shared by several strategies.
- `SourceSteam`, `SourceXbl`, `SourceMinecraftId`, `SourceMinecraftUsername`, `SourceMinecraft`: each strategy has two layers.
  - **Pure layer:** `Validate`, `Key`, `Url`, `FetchResult`/`FetchCall`.
  - **Class layer:** the strategy object's fields, with `SetPayload` (modifies the object), `CacheKey` (reads it) and `Fetch`, each proved against the pure layer.
- `ProfileSourceInterface`: the protocol.
  - The strategies form a closed family, so `Source` is a datatype over the five strategy objects.
  - `ValidateAs`, `KeyAs`, `FetchAs` and `BucketsAs` give what a strategy does for a payload.
  - `Source.Loaded(p)` says the object holds what `setPayload(p)` stored.
- `ProfileService`: the pure `Serve` and the `ProfileService` class, whose `cache` field is a `map` from key to entry with an expiry.
- `LookupRequest`, `ErrorRendering`, `ProfileController`: the request rules, the renderers, and the whole endpoint `Invoke`.

Upstream calls are inputs. A `seq<Transport>` scripts what each attempt gets: a failed connection, or a response with a status and a decoded JSON body. Attempts beyond the script fail to connect. The caller's IP address and the clock are parameters.

## Where the intended behaviour and the code differ

The service's design describes a few behaviours differently from how the code implements them. The model follows the code in each case.

- **Retrying failed statuses.** The design says only transport failures are retried. The client is configured with `retry(3, …, throw: false)` and no retry condition, so Laravel also retries failed (4xx/5xx) responses. After the last try it returns the failed response, and `get` then classifies it.
- **Not-found errors.** The design names a distinct not-found error. Steam, Xbox Live and Minecraft-by-UUID throw a request failure with status 404. Minecraft-by-name relies on the request service turning an upstream 404 into one. Only the unified Minecraft strategy has its own not-found exception.
- **Validation errors inside the controller.** The design maps validation errors to 422. That holds for the request-level rules. A payload that a strategy's `setPayload` refuses is thrown inside the controller's `try` and answered 500 "Server error".

## Model

| member | source | states |
|---|---|---|
| Domain.SplitNamespacedKey | app/Interfaces/ProfileSourceInterface.php:17-21 | a key `tag|identifier` whose tag has no `|` splits back into exactly that tag and identifier |
| Domain.NamespacedKeysDistinct | app/Interfaces/ProfileSourceInterface.php:17-21 | two keys whose tags are free of `|` coincide only when both tag and identifier coincide |
| ExternalRequest.SendFrom | app/Services/ExternalRequestService.php:17-23 | the client stops at the first attempt that is not a failure, or after `tries` attempts; every earlier attempt was a failure; the last outcome is that attempt's |
| ExternalRequest.LinearBackoffMs | app/Services/ExternalRequestService.php:20 | pauses of attempt × step add up to step·n(n−1)/2 over n attempts |
| ExternalRequest.Classify | app/Services/ExternalRequestService.php:24-44 | the final attempt is returned exactly when it is a response that is not a failure; a failed response's status is kept; whatever is thrown is a request failure with status ≥ 400 |
| ExternalRequest.Get | app/Services/ExternalRequestService.php:14-45 | 1 to 3 attempts, and the worst case is at most 3 × 5000 + 300 ms. A failure is tried again while tries remain, and a response that is not a failure ends the retries. A connection failure on the last attempt is a 500 request failure. A failed status is a request failure carrying that status. Otherwise the last response is returned unchanged (if and only if). Every failure thrown has status ≥ 400. Exactly one warning per failure and none on success |
| ExternalRequest.RetriesAfterConnectionFailure | tests/Unit/Services/ExternalRequestServiceTest.php:11-24 | one failed connection then a 200: two attempts, the 200 returned, no warning |
| ExternalRequest.NoContentIsReturned | app/Services/ExternalRequestService.php:44 | a 204 is not a failure: it is returned as is after one attempt |
| RateLimiting.AfterHit | app/Services/ProfileSourceStrategies/ProfileSourceSteam.php:49-54 | for a positive decay, a hit raises the key's live count by one; it leaves every other key's window as it was |
| RateLimiting.ReplayCounts | app/Services/ProfileSourceStrategies/ProfileSourceSteam.php:49-54 | n hits inside one window count n; the window opened at the first hit |
| RateLimiting.ReplayIsolated | app/Services/ProfileSourceStrategies/ProfileSourceSteam.php:49-54 | hits on one key never change another key's window |
| RateLimiting.RateLimiter.constructor | app/Services/ProfileSourceStrategies/ProfileSourceSteam.php:49-54 | a fresh limiter has no windows |
| RateLimiting.RateLimiter.TooMany | app/Services/ProfileSourceStrategies/ProfileSourceSteam.php:49-56 | the limiter refuses exactly when the key's live hits reach the maximum |
| RateLimiting.RateLimiter.Hit | app/Services/ProfileSourceStrategies/ProfileSourceSteam.php:49-54 | the buckets become `AfterHit` of the old buckets |
| ProfileSourceEnum.Value | app/Enums/ProfileSourceEnum.php:11-13 | no backing value contains `|`, so each one delimits a key namespace |
| ProfileSourceEnum.From | app/Enums/ProfileSourceEnum.php:9-13 | `from(s)` is the case whose value is s, and fails (ValueError) exactly when no case has that value |
| ProfileSourceEnum.FromValue | app/Enums/ProfileSourceEnum.php:9-13 | `from(c.value) == c` for every case |
| ProfileSourceEnum.ValuesDistinct | app/Enums/ProfileSourceEnum.php:11-13 | distinct cases have distinct values |
| ProfileSourceEnum.Strategy | app/Enums/ProfileSourceEnum.php:15-21 | STEAM dispatches to the Steam strategy and MINECRAFT to the unified Minecraft strategy. XBL has no arm (UnhandledMatchError), and it is the only such tag |
| IdentService.Interpret | app/Services/ProfileSourceStrategies/ProfileSourceSteam.php:60-71 | Request-service errors pass through. A body with `error.code == 400` is a 404 request failure. A set `error` without a readable `code` is a rethrown warning. Otherwise the body's mapping (if and only if the body holds its keys) |
| IdentService.Normalise | app/Services/ProfileSourceStrategies/ProfileSourceSteam.php:67-71 | a profile exactly when the body holds `username`, `id` and `meta.avatar`, and then it is those values; a missing key is a rethrown warning |
| Mojang.Normalise | app/Services/ProfileSourceStrategies/ProfileSourceMinecraftId.php:55-59 | a profile exactly when the body holds `name` and an `id` that converts to text. Username is `name`, id is `id`, and the avatar is `https://crafatar.com/avatars` followed directly by the id's text. Otherwise a rethrown warning |
| SourceSteam.AcceptedIdPasses | app/Services/ProfileSourceStrategies/ProfileSourceSteam.php:24-33 | a 17-digit id without a leading zero (text or integer) passes required, integer and digits:17 |
| SourceSteam.OtherIdFails | app/Services/ProfileSourceStrategies/ProfileSourceSteam.php:24-33 | any other id, or none, fails one of the rules |
| SourceSteam.RulesAcceptExactly | app/Services/ProfileSourceStrategies/ProfileSourceSteam.php:24-33 | no errors exactly for accepted ids; otherwise the error is on `id` alone |
| SourceSteam.Validate | app/Services/ProfileSourceStrategies/ProfileSourceSteam.php:22-36 | accepted if and only if the id is 17 digits; a refusal is a validation error on `id`; the stored integer lies in [10^16, 10^17) and prints back as the payload's text |
| SourceSteam.RejectedIds | tests/Unit/Services/ProfileSources/ProfileSourceSteamTest.php:18-44 | a missing id, `123`, eighteen ones and seventeen letters are refused |
| SourceSteam.Key | app/Services/ProfileSourceStrategies/ProfileSourceSteam.php:38-41 | the key splits into `steam` and the decimal id |
| SourceSteam.KeyEchoesPayload | app/Services/ProfileSourceStrategies/ProfileSourceSteam.php:35-40 | for an accepted text id the key is `steam|` followed by that same text |
| SourceSteam.SeventeenDigitKey | tests/Unit/Services/ProfileSources/ProfileSourceSteamTest.php:46-55 | every 17-digit text id (such as `99999999999999999`) is accepted and keyed `steam|` + the id |
| SourceSteam.Url | app/Services/ProfileSourceStrategies/ProfileSourceSteam.php:45 | the service-4 base followed by the decimal id |
| SourceSteam.LimiterKey | app/Services/ProfileSourceStrategies/ProfileSourceSteam.php:47-50 | the limiter key is `external_call|steam|` followed by the caller's IP |
| SourceSteam.LimiterKeysDistinct | app/Services/ProfileSourceStrategies/ProfileSourceSteam.php:47-50 | distinct callers never share a bucket |
| SourceSteam.FetchResult | app/Services/ProfileSourceStrategies/ProfileSourceSteam.php:43-72 | A full limiter throws the throttle. An admitted call is `IdentService.Interpret` of the request service's outcome. A profile exactly when admitted and the response has a complete body without a not-found marker, and then it is that body's mapping. Request failures have status ≥ 400 |
| SourceSteam.BucketsAfterFetch | app/Services/ProfileSourceStrategies/ProfileSourceSteam.php:49-54 | the caller's live count grows by one exactly when the call was admitted and the request service returned; every other caller's window is unchanged |
| SourceSteam.SteamSource.constructor | app/Services/ProfileSourceStrategies/ProfileSourceSteam.php:20 | a new strategy holds no validated id |
| SourceSteam.SteamSource.SetPayload | app/Services/ProfileSourceStrategies/ProfileSourceSteam.php:22-36 | a refused payload throws and leaves the object unchanged; an accepted one stores the validated id |
| SourceSteam.SteamSource.CacheKey | app/Services/ProfileSourceStrategies/ProfileSourceSteam.php:38-41 | needs a prior accepted `setPayload`; the key of the stored id |
| SourceSteam.SteamSource.Fetch | app/Services/ProfileSourceStrategies/ProfileSourceSteam.php:43-72 | the request service is contacted exactly when the limiter admits the call; the result is `FetchResult`; a hit is recorded only when the request service returned |
| SourceSteam.FiftyAdmittedThenThrottled | tests/Unit/Services/ProfileSources/ProfileSourceSteamTest.php:139-145 | fifty calls within a minute are each admitted; the fifty-first in that minute is throttled without reaching the service |
| SourceSteam.ExampleFetch | tests/Unit/Services/ProfileSources/ProfileSourceSteamTest.php:78-110 | a found body of the test's shape (such as username `exampleUser123`, id `99999999999999999`) maps to its username, id and `meta.avatar` |
| SourceSteam.NotFoundBodyIs404 | tests/Unit/Services/ProfileSources/ProfileSourceSteamTest.php:57-76 | a 200 whose body has `error.code == 400` is a 404 request failure, never a profile |
| SourceXbl.RulesExact | app/Services/ProfileSourceStrategies/ProfileSourceXbl.php:27-41 | the fields in error: both when neither or both are given; `id` when it is not an integer; `username` when it is not a string |
| SourceXbl.ExactlyOneRequired | tests/Unit/Services/ProfileSources/ProfileSourceXblTest.php:16-36 | neither field or both fields: errors on both |
| SourceXbl.StoredId | app/Services/ProfileSourceStrategies/ProfileSourceXbl.php:43 | Null stays null and an integer is kept. A string is stored exactly when it is an integer string, and then as its value. A stored canonical digit string prints back as itself |
| SourceXbl.Validate | app/Services/ProfileSourceStrategies/ProfileSourceXbl.php:25-45 | Accepted exactly when the rules pass and PHP can store the id in `int|null`. An accepted payload gives exactly one identifier, and both fields are overwritten (`?? null`). A canonical id text prints back unchanged. Rule errors become a validation error; an id PHP cannot store raises a TypeError |
| SourceXbl.Key | app/Services/ProfileSourceStrategies/ProfileSourceXbl.php:47-52 | the key splits into `xbl` and the id if set, else the gamertag |
| SourceXbl.Url | app/Services/ProfileSourceStrategies/ProfileSourceXbl.php:54-64 | the service-3 base plus the identifier, with `?type=username` appended exactly when a gamertag was given |
| SourceXbl.FetchResult | app/Services/ProfileSourceStrategies/ProfileSourceXbl.php:66-82 | Request-service errors pass through. A not-found body is a 404 request failure. A profile exactly when the response has a complete body without a not-found marker, and then it is that body's mapping. Otherwise a request failure ≥ 400 or a rethrown warning |
| SourceXbl.XblSource.constructor | app/Services/ProfileSourceStrategies/ProfileSourceXbl.php:23 | a new strategy holds nothing validated |
| SourceXbl.XblSource.SetPayload | app/Services/ProfileSourceStrategies/ProfileSourceXbl.php:25-45 | a refused payload leaves the object unchanged; an accepted one overwrites both fields |
| SourceXbl.XblSource.CacheKey | app/Services/ProfileSourceStrategies/ProfileSourceXbl.php:47-52 | the key of the stored fields |
| SourceXbl.XblSource.Fetch | app/Services/ProfileSourceStrategies/ProfileSourceXbl.php:66-82 | the result is `FetchResult` of the stored fields |
| SourceXbl.IdKeyEchoesPayload | tests/Unit/Services/ProfileSources/ProfileSourceXblTest.php:38-53 | an id text of up to 18 digits is accepted and keyed `xbl|` + that text |
| SourceXbl.UsernameKeyExample | tests/Unit/Services/ProfileSources/ProfileSourceXblTest.php:38-53 | the payload `username=john.smith` is keyed `xbl|john.smith` |
| SourceXbl.NotFoundBodyIs404 | tests/Unit/Services/ProfileSources/ProfileSourceXblTest.php:55-74 | a 200 whose body has `error.code == 400` is a 404 request failure |
| SourceXbl.IdAndGamertagShareKey | app/Services/ProfileSourceStrategies/ProfileSourceXbl.php:47-52 | id 123 and gamertag `123` get the same key |
| SourceMinecraftId.Validate | app/Services/ProfileSourceStrategies/ProfileSourceMinecraftId.php:23-36 | accepted if and only if `id` is a non-blank string; the stored id is that string; a refusal is an error on `id` |
| SourceMinecraftId.EmptyPayloadRejected | tests/Unit/Services/ProfileSources/ProfileSourceMinecraftIdTest.php:16-33 | an empty payload is refused |
| SourceMinecraftId.Key | app/Services/ProfileSourceStrategies/ProfileSourceMinecraftId.php:38-41 | the key splits into `minecraft` and the id |
| SourceMinecraftId.Url | app/Services/ProfileSourceStrategies/ProfileSourceMinecraftId.php:45 | the session-server base followed by the id |
| SourceMinecraftId.FetchResult | app/Services/ProfileSourceStrategies/ProfileSourceMinecraftId.php:43-60 | Request-service errors propagate unchanged. A 204 is a 404 request failure. Any other response is `Mojang.Normalise` of its body, so a profile exactly when that body is complete |
| SourceMinecraftId.MinecraftIdSource.constructor | app/Services/ProfileSourceStrategies/ProfileSourceMinecraftId.php:19-21 | a new strategy holds nothing validated |
| SourceMinecraftId.MinecraftIdSource.SetPayload | app/Services/ProfileSourceStrategies/ProfileSourceMinecraftId.php:23-36 | a refused payload leaves the object unchanged; an accepted one stores the id |
| SourceMinecraftId.MinecraftIdSource.CacheKey | app/Services/ProfileSourceStrategies/ProfileSourceMinecraftId.php:38-41 | the key of the stored id |
| SourceMinecraftId.MinecraftIdSource.Fetch | app/Services/ProfileSourceStrategies/ProfileSourceMinecraftId.php:43-60 | the result is `FetchResult` of the stored id |
| SourceMinecraftId.NoContentIsNotFound | tests/Unit/Services/ProfileSources/ProfileSourceMinecraftIdTest.php:46-67 | a 204 from the session server is a 404 request failure |
| SourceMinecraftUsername.Validate | app/Services/ProfileSourceStrategies/ProfileSourceMinecraftUsername.php:21-34 | accepted if and only if `username` is a non-blank string; the stored name is that string; a refusal is an error on `username` |
| SourceMinecraftUsername.EmptyPayloadRejected | tests/Unit/Services/ProfileSources/ProfileSourceMinecraftUsernameTest.php:16-33 | an empty payload is refused |
| SourceMinecraftUsername.Key | app/Services/ProfileSourceStrategies/ProfileSourceMinecraftUsername.php:36-39 | the key splits into `minecraft` and the name |
| SourceMinecraftUsername.Url | app/Services/ProfileSourceStrategies/ProfileSourceMinecraftUsername.php:43 | the profile-API base followed by the name |
| SourceMinecraftUsername.FetchResult | app/Services/ProfileSourceStrategies/ProfileSourceMinecraftUsername.php:41-54 | Request-service errors propagate. Every response that is not a failure is `Mojang.Normalise` of its body, so a profile exactly when that body is complete |
| SourceMinecraftUsername.MinecraftUsernameSource.constructor | app/Services/ProfileSourceStrategies/ProfileSourceMinecraftUsername.php:17-19 | a new strategy holds nothing validated |
| SourceMinecraftUsername.MinecraftUsernameSource.SetPayload | app/Services/ProfileSourceStrategies/ProfileSourceMinecraftUsername.php:21-34 | a refused payload leaves the object unchanged; an accepted one stores the name |
| SourceMinecraftUsername.MinecraftUsernameSource.CacheKey | app/Services/ProfileSourceStrategies/ProfileSourceMinecraftUsername.php:36-39 | the key of the stored name |
| SourceMinecraftUsername.MinecraftUsernameSource.Fetch | app/Services/ProfileSourceStrategies/ProfileSourceMinecraftUsername.php:41-54 | the result is `FetchResult` of the stored name |
| SourceMinecraftUsername.NotFoundIs404 | tests/Unit/Services/ProfileSources/ProfileSourceMinecraftUsernameTest.php:46-68 | an upstream 404 surfaces, through the request service, as a 404 request failure |
| SourceMinecraftUsername.NoContentRaises | app/Services/ProfileSourceStrategies/ProfileSourceMinecraftUsername.php:45-53 | a 204 with an empty body reaches the mapping and raises a warning instead of producing a profile |
| SourceMinecraft.RulesExact | app/Services/ProfileSourceStrategies/ProfileSourceMinecraft.php:28-42 | the fields in error: both when neither or both are given; a field given but not a string |
| SourceMinecraft.ExactlyOneRequired | tests/Unit/Services/ProfileSources/ProfileSourceMinecraftTest.php:15-35 | neither field or both fields: errors on both |
| SourceMinecraft.Validate | app/Services/ProfileSourceStrategies/ProfileSourceMinecraft.php:26-46 | accepted if and only if exactly one identifier is given and each given field is a string; each field given is stored as its string, each left out as null |
| SourceMinecraft.Key | app/Services/ProfileSourceStrategies/ProfileSourceMinecraft.php:48-53 | the key splits into `minecraft` and the id if set, else the name |
| SourceMinecraft.Url | app/Services/ProfileSourceStrategies/ProfileSourceMinecraft.php:55-62 | the session server plus the id when an id is set, the profile API plus the name otherwise |
| SourceMinecraft.FetchCall | app/Services/ProfileSourceStrategies/ProfileSourceMinecraft.php:64-100 | 1 or 2 tries, and a failed first try is tried again. A connection failure is a fetch failure with no warning. A 204 is not-found naming the id; a 404 is not-found naming the name. Another failed status is a fetch failure naming the status, with one warning. Any other response is `Mojang.Normalise` of its body (a profile if and only if the body is complete). Besides a warning while reading, only this strategy's own exceptions escape |
| SourceMinecraft.MinecraftSource.constructor | app/Services/ProfileSourceStrategies/ProfileSourceMinecraft.php:19-24 | a new strategy holds nothing validated |
| SourceMinecraft.MinecraftSource.SetPayload | app/Services/ProfileSourceStrategies/ProfileSourceMinecraft.php:26-46 | a refused payload leaves the object unchanged; an accepted one overwrites both fields |
| SourceMinecraft.MinecraftSource.CacheKey | app/Services/ProfileSourceStrategies/ProfileSourceMinecraft.php:48-53 | the key of the stored fields |
| SourceMinecraft.MinecraftSource.Fetch | app/Services/ProfileSourceStrategies/ProfileSourceMinecraft.php:64-100 | the result is `FetchCall`'s for the stored fields |
| SourceMinecraft.IdKeyEchoesPayload | tests/Unit/Services/ProfileSources/ProfileSourceMinecraftTest.php:37-46 | a UUID payload is accepted and keyed `minecraft|` + the UUID |
| SourceMinecraft.NoContentIsIdNotFound | tests/Unit/Services/ProfileSources/ProfileSourceMinecraftTest.php:48-63 | a 204 is a not-found error naming the id |
| SourceMinecraft.NotFoundIsUsernameNotFound | tests/Unit/Services/ProfileSources/ProfileSourceMinecraftTest.php:65-81 | a 404 on both tries is a not-found error naming the player |
| SourceMinecraft.UnreachableService | app/Services/ProfileSourceStrategies/ProfileSourceMinecraft.php:66-73 | a service that never answers gives a fetch failure after two tries, without a warning |
| ProfileSourceInterface.ValidationErrors | app/Interfaces/ProfileSourceInterface.php:7-15 | `setPayload` throws only a validation error naming some field, or (Xbl only) a TypeError |
| ProfileSourceInterface.KeyNamespaced | app/Interfaces/ProfileSourceInterface.php:17-21 | every strategy's key is `<its tag>|…` |
| ProfileSourceInterface.KeysDistinctAcrossSources | app/Interfaces/ProfileSourceInterface.php:17-21 | keys of strategies for different sources never coincide, whatever the payloads |
| ProfileSourceInterface.FetchErrors | app/Interfaces/ProfileSourceInterface.php:23-31 | `fetch` fails only with a request failure of status ≥ 400 (not-found as 404), a throttle (Steam), the unified Minecraft strategy's not-found and fetch-failed exceptions, or a rethrown warning while reading a body |
| ProfileSourceInterface.Source.CacheKey | app/Interfaces/ProfileSourceInterface.php:17-21 | the dispatched key lies in the strategy's own namespace |
| ProfileSourceInterface.LoadedDetermines | app/Interfaces/ProfileSourceInterface.php:17-21 | after `setPayload(p)` the key is the one p determines |
| ProfileSourceInterface.Make | app/Enums/ProfileSourceEnum.php:15-21 | `new` gives a fresh strategy of the requested kind with nothing validated |
| ProfileSourceInterface.SetPayload | app/Interfaces/ProfileSourceInterface.php:7-15 | the outcome is the strategy's validation; on success the object holds what p determines; on failure the object is unchanged |
| ProfileSourceInterface.Fetch | app/Interfaces/ProfileSourceInterface.php:23-31 | for a source loaded with p, the result and the limiter afterwards are those p determines |
| ProfileService.Cached | app/Services/ProfileService.php:32-36 | a profile exactly when the key holds an entry that has not expired, and then that entry's profile |
| ProfileService.Serve | app/Services/ProfileService.php:27-44 | A refused payload touches neither cache nor source. A live entry is returned unchanged without asking the source. Otherwise the source is asked once, and its answer is returned. A fetched profile is stored under the key for one day. A failure stores nothing |
| ProfileService.OnlyOwnKeyChanges | app/Services/ProfileService.php:41 | every other cache entry survives a lookup unchanged |
| ProfileService.OtherSourcesUntouched | app/Services/ProfileService.php:41 | a lookup through one source never changes an entry cached for another source |
| ProfileService.RepeatIsCached | app/Services/ProfileService.php:32-43 | after a lookup that produced a profile, the same payload within a day returns the same profile from the cache without asking the source |
| ProfileService.KeepsNamespaced | app/Services/ProfileService.php:32-41 | if every cached key lies in some source's namespace, that stays true after a lookup |
| ProfileService.ProfileService.constructor | app/Services/ProfileService.php:9-11 | no source set and an empty cache |
| ProfileService.ProfileService.SetSource | app/Services/ProfileService.php:16-19 | later lookups use the new source; the cache is kept |
| ProfileService.ProfileService.Fetch | app/Services/ProfileService.php:27-44 | The result, cache and limiter afterwards are `Serve`'s for the source's kind. The strategy object holds what `setPayload(p)` stored, or is untouched when p is refused. An unset source is an Error |
| LookupRequest.Authorize | app/Http/Requests/ProfileLookupRequest.php:14-17 | every caller is authorised |
| LookupRequest.TypeValuesAreTags | app/Http/Requests/ProfileLookupRequest.php:27-29 | the enum rule accepts exactly the values `from` resolves |
| LookupRequest.DecimalIsNoTag | app/Http/Requests/ProfileLookupRequest.php:27-29 | no integer's text is a tag, so an integer `type` is refused |
| LookupRequest.RulesExact | app/Http/Requests/ProfileLookupRequest.php:24-33 | errors are on `type` exactly when it is given, non-blank and not a tag, and on both identifiers exactly when neither is given |
| LookupRequest.InvalidType | tests/Feature/LookupEndpointTest.php:20-23 | `type=aaa&id=123` is refused on `type` alone |
| LookupRequest.MissingIdentifier | tests/Feature/LookupEndpointTest.php:24-42 | `type=steam` alone is refused on `id` and `username` |
| LookupRequest.BothIdentifiersAccepted | app/Http/Requests/ProfileLookupRequest.php:30-31 | both identifiers together are not refused at this level |
| LookupRequest.MissingTypePasses | app/Http/Requests/ProfileLookupRequest.php:27-29 | as written, an identifier without `type` passes, and `from` has no case for what it then receives |
| LookupRequest.CorrectedRulesExact | app/Http/Requests/ProfileLookupRequest.php:26-32 | with `type` required, the only new error is on a missing or blank `type` |
| LookupRequest.CorrectedTypeResolves | app/Http/Requests/ProfileLookupRequest.php:27-29 | with `type` required, every passing request names a tag `from` resolves |
| ErrorRendering.RenderRequestFailed | bootstrap/app.php:33-65 | rendered exactly when status ≥ 400: 404 as 404, ≥ 500 as 502, other 4xx as 400; the message is kept and `external_response_code` is the status |
| ErrorRendering.RenderThrottle | bootstrap/app.php:67-71 | 429 with the exception's message |
| ErrorRendering.RenderNotFound | bootstrap/app.php:24-31 | 404 "Not found" exactly for paths under `api/` |
| ErrorRendering.RenderedStatuses | bootstrap/app.php:33-65 | a rendered upstream failure is always 400, 404 or 502 |
| ErrorRendering.TestedStatuses | tests/Feature/LookupEndpointTest.php:45-64 | 404 → 404, 500 → 502, 422 → 400, 400 → 400 |
| ProfileController.Catch | app/Http/Controllers/ProfileController.php:27-48 | Request failures: 404 → 404, ≥ 500 → 502, other ≥ 400 → 400, below 400 → no branch. A throttle → 429 with the fixed message. Other exceptions, including a rethrown warning, → 500 "Server error". PHP Errors escape |
| ProfileController.AgreesWithRenderer | app/Http/Controllers/ProfileController.php:27-44 | the controller answers a request failure exactly when the renderer would, and with the same status |
| ProfileController.Invoke | app/Http/Controllers/ProfileController.php:19-52 | Refused request rules give 422 with the fields. An unknown tag raises ValueError. A tag without a strategy raises UnhandledMatchError. Otherwise the service's profile is a 200 carrying it, and the service's exception goes through `Catch`. The cache and limiter afterwards are the service's. A 200 is only ever a profile |
| ProfileController.NeverUnassigned | app/Http/Controllers/ProfileController.php:27-51 | no request reaches the return with `$profile` unassigned: every request failure thrown has status ≥ 400 |
| ProfileController.XblUnsupported | app/Enums/ProfileSourceEnum.php:17-20 | every valid `type=xbl` request ends in an unhandled match error |
| ProfileController.StrategyRefusalIsServerError | app/Http/Controllers/ProfileController.php:47-48 | a Steam payload that passes the request rules but not the strategy's is answered 500 "Server error" |
| ProfileController.IncompleteSteamBodyIsServerError | app/Http/Controllers/ProfileController.php:47-48 | a Steam lookup whose upstream body lacks the expected keys is answered 500 "Server error" and caches nothing |
| ProfileController.MissingTypeCrashes | app/Http/Controllers/ProfileController.php:22 | as written, a request with an identifier and no `type` ends in an uncaught ValueError |
| ProfileController.CorrectedNeverValueError | app/Http/Controllers/ProfileController.php:22 | with `type` required, no request ends in that ValueError |

## Left out

- HTTP I/O, timeouts and sleeping are left out. Each attempt's outcome is an input, and time appears only as the worst-case bound in `ExternalRequest.Get`.
- The retry library is given as its observable rule (stop at the first response that is not a failure, or after the last try). Its code and exception plumbing are not part of this model.
- Limiter atomicity and concurrent requests are left out. So are the Redis throttle middleware (bootstrap/app.php:21) and the 500-per-minute per-IP limiter (app/Providers/AppServiceProvider.php:34-36), which act outside the core.
- The cache backend is left out. The global cache is the `cache` field of `ProfileService`, passed from request to request in `ProfileController.Invoke`. Entries written without an expiry (as a test does) are not modelled: every entry carries one. Concurrent misses and any deduplication of them are left out.
- Log entries are modelled only as count, message and URL. Their context arrays are left out.
- `ErrorResource` and the JSON response bodies are not part of this model. A reply is a status with a profile, a message or the fields in error.
- `ExternalRequestFailedException` is not part of this model.
  - Steam and Xbl construct it with the message first and a named `code: 404`; the request service and Minecraft-by-UUID pass the status first. The model takes all of them as a request failure with that status and message.
  - The controller reads `getCode()` and the renderer `getStatusCode()`. The model assumes both give the status.
- `ProfileNotFoundException` and `ProfileFetchException` are not part of this model. They are assumed to extend `Exception`, which is why the controller's last `catch` answers them with 500.
- `ProfileSourceEnum::strategy()` constructs `ProfileSourceSteam` without the request service its constructor requires, which in PHP raises an ArgumentCountError. The controller also passes `strategy()` an argument it ignores. The model treats the construction as succeeding.
- Steam, Xbl and the unified Minecraft strategy import `App\Services\ProfileSourceInterface`, a file that is not part of this model. `ProfileService` takes `App\Interfaces\ProfileSourceInterface`. The model treats both as one protocol.
- The Laravel validator is modelled only for the rules this core uses. Payload values are null, strings or integers; arrays, booleans and floats are left out. Laravel's input middleware (trimming strings, turning empty strings into null) is left out, and so is whitespace around integers in `FILTER_VALIDATE_INT`.
- Bodies are given already decoded. A missing key, or an offset on null, a scalar or a list, is a warning that Laravel rethrows as an ErrorException. Indexing a JSON string by a key is modelled the same way; PHP's own reaction to string offsets is left out.
- The dependency-injection wiring (app/Providers/AppServiceProvider.php:20-23) is left out, and so is `ProfileSerivceInterface`, which only declares the signatures `ProfileService` implements. `request()->ip()` is a parameter.

## Findings

| source | as written | input that shows it | evidently intended | confidence | as-written member | corrected member |
|---|---|---|---|---|---|---|
| app/Http/Requests/ProfileLookupRequest.php:27-29 | `type` has only the enum rule, which Laravel skips when the field is missing or blank, so such a request passes. The controller then calls `ProfileSourceEnum::from` on null (read as `""`) and gets a ValueError that `catch (Exception)` does not catch | `GET /api/lookup?id=123` | `type` is required, so the request is refused with 422 on `type` | medium; not executed | ProfileController.MissingTypeCrashes | ProfileController.CorrectedNeverValueError |
