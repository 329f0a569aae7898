# OkhttpCacheInterceptor, modelled in Dafny

This project models `CacheInterceptor`. It is an OkHttp interceptor that caches response texts by request fingerprint and replays them when the network fails. It covers:

- the policy that decides whether a request opts in (header `cache: true`, or any non-empty `Cache-Control`);
- the form-parameter string `n0=v0,n1=v1,...` of a POST form;
- the cache key `digest(url + params)`;
- the success path, which stores the body text and rebuilds the response around it;
- the second call made after a non-success status;
- the fallback to the store when an exception is thrown inside the try block, and the extra call made on a cache miss.

Files and modules:

- `wrappers.dfy` (`Wrappers`): Option and Result.
- `http.dfy` (`Http`): requests, form fields, responses, bodies, and the outcome of one network call. `Content` says what `ResponseBody.string()` does: it gives a text, gives null, or throws.
- `cache_store.dfy` (`CacheStore`): class `CacheManager`. It holds the persisted entries as a `map` field that `SetCache` reassigns. `encryptMD5` is a function-valued constant. It is fixed but arbitrary, so no proof relies on it being injective.
- `transport.dfy` (`Transport`): class `Chain`, which plays the role of `Interceptor.Chain`. Its field `outcomes` holds what the next `proceed` calls will produce. `sent` logs every request handed to `proceed`.
- `form_params.dfy` (`FormParams`): the parameter string, Java's `StringBuilder.delete`, and a split/parse function used to state the round trip.
- `interceptor.dfy` (`Interceptor`):
  - the policy, `ParamsOf`, and the two response builders;
  - `Interception`, a functional description of one `intercept` call. It gives the reply, the store afterwards, and the number of `proceed` calls;
  - class `CacheInterceptor`. Its `Intercept` method consumes a `Chain` and updates the `CacheManager` step by step. It is proved to do exactly what `Interception` says.
- `interceptor_props.dfy` (`InterceptorProps`): the properties of `Interception`.
- `scenarios.dfy` (`Scenarios`): a request shaped like the demo app's geocoding call, worked through both the function and the objects. The demo sends `getIndex("苏州市")`, percent-encoded, to `http://gc.ditu.aliyun.com/geocoding`; the scenarios use `http://x/geocoding` and `SuzhouCity` as stand-ins for that URL and value.

Behaviour the model keeps exactly as the code has it, even where the library's intent might suggest otherwise:

- A cacheable POST form with zero fields runs `sb.delete(-1, 0)`, which throws `StringIndexOutOfBoundsException`. This happens at `getPostParams` (line 48), before the `try`, so `intercept` throws before any network call. An empty form does not give `""`.
- A non-success status (outside 200..299) is not returned. A second `proceed` is made and its response is returned. If that second call throws, the fallback runs. With a further cache miss, this adds up to three calls.
- The rebuilt online response is built from the upstream code, message, protocol and request, plus the content type handed to `ResponseBody.create` (line 117). The upstream headers are not kept, because `Response.Builder` is never given them. How `ResponseBody.create` may rewrite that content type is listed under "## Left out".
- `Cache-Control` directives are never parsed, so `no-store` and `no-cache` opt in too.
- The URL and the parameter string are concatenated with no separator. A non-POST request to `u + p` and a POST form to `u` whose parameter string is `p` share a cache key, whatever the digest (`QueryAndFormShareKey`).

## Model

| member | source | states |
|---|---|---|
| InterceptorProps.PolicyIgnoresDirectives | cacheinterceptor/src/main/java/com/xiaolei/OkhttpCacheInterceptor/CacheInterceptor.java:42-43 | any non-empty `Cache-Control` value opts the request in, whatever directive it names |
| InterceptorProps.PolicyNeedsExactTrue | cacheinterceptor/src/main/java/com/xiaolei/OkhttpCacheInterceptor/CacheInterceptor.java:39-43 | without a non-empty `Cache-Control`, a request opts in iff its `cache` header is exactly `"true"` |
| InterceptorProps.DeclaredHeadersOptIn | cacheinterceptor/src/main/java/com/xiaolei/OkhttpCacheInterceptor/Header/CacheHeaders.java:12-22 | each declared header constant (including no-store and no-cache) opts in; no headers, `cache: TRUE`, or an empty `Cache-Control` do not |
| Interceptor.ShouldCache | cacheinterceptor/src/main/java/com/xiaolei/OkhttpCacheInterceptor/CacheInterceptor.java:39-43 | the policy test: opting in needs a `cache` or a `Cache-Control` header; with no `Cache-Control` header it holds iff `cache` is exactly `"true"` |
| Interceptor.IsPostForm | cacheinterceptor/src/main/java/com/xiaolei/OkhttpCacheInterceptor/CacheInterceptor.java:134-137 | the guard under which form fields are read: the method is `POST` and the body is a FormBody |
| Interceptor.Key | cacheinterceptor/src/main/java/com/xiaolei/OkhttpCacheInterceptor/CacheInterceptor.java:62 | the cache key, `encryptMD5(url + params)`, used for the write at line 62 and recomputed for the read at line 93 |
| Http.Header | cacheinterceptor/src/main/java/com/xiaolei/OkhttpCacheInterceptor/CacheInterceptor.java:39-40 | `request.header(name)`: the header's value, or none when the request lacks it |
| Http.IsSuccessful | cacheinterceptor/src/main/java/com/xiaolei/OkhttpCacheInterceptor/CacheInterceptor.java:52 | `isSuccessful()`: the status code lies in 200..299 |
| Http.ReadString | cacheinterceptor/src/main/java/com/xiaolei/OkhttpCacheInterceptor/CacheInterceptor.java:57 | `responseBody.string()`: the text, null, or a thrown IOException |
| Http.Relay | cacheinterceptor/src/main/java/com/xiaolei/OkhttpCacheInterceptor/CacheInterceptor.java:84 | how the result of `return chain.proceed(request)` reaches intercept's caller: a response is returned unchanged, and a failed call is rethrown as IOException (also at lines 68 and 76) |
| CacheStore.Lookup | cacheinterceptor/src/main/java/com/xiaolei/OkhttpCacheInterceptor/CacheInterceptor.java:93 | `getCache(key)` as a function of the entries: the stored text, or none on a miss |
| Interceptor.ParamsOf | cacheinterceptor/src/main/java/com/xiaolei/OkhttpCacheInterceptor/CacheInterceptor.java:130-153 | it fails, with StringIndexOutOfBounds, exactly for a POST FormBody with no fields; every request other than a POST form gives `""` |
| Interceptor.CacheInterceptor.PostParams | cacheinterceptor/src/main/java/com/xiaolei/OkhttpCacheInterceptor/CacheInterceptor.java:130-153 | the StringBuilder loop that appends `name=value,` per field and then deletes the last character gives exactly `ParamsOf`: the comma-joined pairs in field order, `""`, or the thrown exception |
| FormParams.DeleteRange | cacheinterceptor/src/main/java/com/xiaolei/OkhttpCacheInterceptor/CacheInterceptor.java:146 | `StringBuilder.delete` throws iff the start is negative or past the clamped end; otherwise the text before `start` and the text from the clamped end on are kept, in order, and nothing else |
| FormParams.TerminatedIsJoinedPlusComma | cacheinterceptor/src/main/java/com/xiaolei/OkhttpCacheInterceptor/CacheInterceptor.java:142-146 | for at least one field, the builder's content after the loop is the joined pairs plus one comma, so cutting one character leaves no trailing comma |
| FormParams.ParamsRoundTrip | cacheinterceptor/src/main/java/com/xiaolei/OkhttpCacheInterceptor/CacheInterceptor.java:142-148 | when no name or value contains `=` or `,`, splitting the parameter string on `,` and then `=` recovers the field list in order |
| Interceptor.OnlineResponse | cacheinterceptor/src/main/java/com/xiaolei/OkhttpCacheInterceptor/CacheInterceptor.java:112-122 | the rebuilt response has the upstream code, message, protocol and request, the upstream body's content type and no headers; its body reads back as the given text; it is successful iff the upstream one is |
| Interceptor.CacheResponse | cacheinterceptor/src/main/java/com/xiaolei/OkhttpCacheInterceptor/CacheInterceptor.java:94-105 | there is a response iff the store had a text; it is a successful 200 "OK" HTTP/1.0 replay of the request whose body reads back as that text |
| Interceptor.CacheInterceptor.GetCacheResponse | cacheinterceptor/src/main/java/com/xiaolei/OkhttpCacheInterceptor/CacheInterceptor.java:88-110 | it recomputes the parameters and reads the store under `digest(url + params)`; its result is the replay for what is stored there, and an exception if the parameters throw |
| Interceptor.Fallback | cacheinterceptor/src/main/java/com/xiaolei/OkhttpCacheInterceptor/CacheInterceptor.java:70-81 | the catch block never changes the store and makes at most one more call |
| Interceptor.Attempt | cacheinterceptor/src/main/java/com/xiaolei/OkhttpCacheInterceptor/CacheInterceptor.java:49-81 | the try block together with its catch makes between one and three calls |
| Interceptor.Interception | cacheinterceptor/src/main/java/com/xiaolei/OkhttpCacheInterceptor/CacheInterceptor.java:36-86 | a request that does not opt in makes one call and leaves the store alone; no request makes more than three calls |
| Interceptor.CacheInterceptor.Intercept | cacheinterceptor/src/main/java/com/xiaolei/OkhttpCacheInterceptor/CacheInterceptor.java:36-86 | the imperative interceptor's reply and new store are those of `Interception`; the chain has consumed exactly that many outcomes, and every call forwarded the chain's own request unchanged |
| CacheStore.CacheManager.SetCache | cacheinterceptor/src/main/java/com/xiaolei/OkhttpCacheInterceptor/CacheInterceptor.java:62 | the key now maps to the value; all other entries are unchanged (last write wins) |
| CacheStore.CacheManager.GetCache | cacheinterceptor/src/main/java/com/xiaolei/OkhttpCacheInterceptor/CacheInterceptor.java:93-98 | there is a text iff the key is stored, and then it is the stored text |
| Transport.Chain.Proceed | cacheinterceptor/src/main/java/com/xiaolei/OkhttpCacheInterceptor/CacheInterceptor.java:51 | one network call: it yields the next scripted outcome, consumes it, and logs the request |
| InterceptorProps.PassThrough | cacheinterceptor/src/main/java/com/xiaolei/OkhttpCacheInterceptor/CacheInterceptor.java:82-85 | without opting in there is exactly one call, its outcome is passed on unchanged, and the store is untouched |
| InterceptorProps.EmptyFormThrowsBeforeProceed | cacheinterceptor/src/main/java/com/xiaolei/OkhttpCacheInterceptor/CacheInterceptor.java:48-49 | a cacheable POST form with no fields throws StringIndexOutOfBounds, with zero calls made and the store untouched |
| InterceptorProps.SuccessStoresReturnedText | cacheinterceptor/src/main/java/com/xiaolei/OkhttpCacheInterceptor/CacheInterceptor.java:52-65 | a successful first response with a readable body: one call; the key maps to the body text (null read as `""`) and the other keys are unchanged; the reply keeps the upstream code, message and protocol and reads back as that text |
| InterceptorProps.SuccessWithoutBodyStoresNothing | cacheinterceptor/src/main/java/com/xiaolei/OkhttpCacheInterceptor/CacheInterceptor.java:54-65 | a successful first response without a body writes nothing and returns the rebuilt response with a null text |
| InterceptorProps.NonSuccessForwardsAgain | cacheinterceptor/src/main/java/com/xiaolei/OkhttpCacheInterceptor/CacheInterceptor.java:66-69 | a non-success status is never stored; the second call's response is returned; if that call throws, the fallback runs after two calls |
| InterceptorProps.ExceptionFallsBack | cacheinterceptor/src/main/java/com/xiaolei/OkhttpCacheInterceptor/CacheInterceptor.java:70-73 | a throwing first call, or a successful body that cannot be read, leads to the fallback after one call |
| InterceptorProps.FallbackHit | cacheinterceptor/src/main/java/com/xiaolei/OkhttpCacheInterceptor/CacheInterceptor.java:88-105 | on a hit the reply is 200 "OK" over HTTP/1.0 with the cached text, no further call is made, and the store is unchanged |
| InterceptorProps.FallbackMiss | cacheinterceptor/src/main/java/com/xiaolei/OkhttpCacheInterceptor/CacheInterceptor.java:73-76 | on a miss exactly one more call is made and its outcome is returned or thrown |
| InterceptorProps.ThirdCallNeedsTwoFailuresAndMiss | cacheinterceptor/src/main/java/com/xiaolei/OkhttpCacheInterceptor/CacheInterceptor.java:51-76 | three calls happen only after a non-success status, a throwing second call and a cache miss |
| InterceptorProps.StoreFrame | cacheinterceptor/src/main/java/com/xiaolei/OkhttpCacheInterceptor/CacheInterceptor.java:52-65 | the store changes only after a successful first response of an opted-in request, and then only at that request's key; no entry is ever removed |
| InterceptorProps.ReplayAfterOutage | cacheinterceptor/src/main/java/com/xiaolei/OkhttpCacheInterceptor/CacheInterceptor.java:62-93 | write key and read key agree: after a stored success, a throwing call for the same URL and parameters is answered from the store with exactly the text the first reply carried |
| InterceptorProps.QueryAndFormShareKey | cacheinterceptor/src/main/java/com/xiaolei/OkhttpCacheInterceptor/CacheInterceptor.java:62 | a non-POST request to `u + p` and a POST form to `u` with parameter string `p` get the same key for every digest |
| Scenarios.GeocodingKey | app/src/main/java/com/xiaolei/Example/Net/Net.java:18-21 | a POST form shaped like the demo's `getIndex` call (field `a`, header `Cache-Control: private`), with `http://x/geocoding` and `SuzhouCity` standing in for the demo's URL and its percent-encoded value, has parameter string `a=SuzhouCity`, and its key is the digest of `http://x/geocodinga=SuzhouCity` |
| Scenarios.GeocodingStoredThenReplayed | app/src/main/java/com/xiaolei/Example/Net/Net.java:18-21 | that stand-in request answered 200 stores its text under that key; a later outage replays it as 200 "OK" over HTTP/1.0 after one call |
| Scenarios.PlainServerErrorPassesThrough | cacheinterceptor/src/main/java/com/xiaolei/OkhttpCacheInterceptor/CacheInterceptor.java:82-85 | without cache headers a 500 is returned as it came, and nothing is stored |
| Scenarios.NotFoundIsNotStored | cacheinterceptor/src/main/java/com/xiaolei/OkhttpCacheInterceptor/CacheInterceptor.java:66-69 | a cacheable request answered 404 twice stores nothing and returns the second 404 after two calls |
| Scenarios.ReplayThroughInterceptor | cacheinterceptor/src/main/java/com/xiaolei/OkhttpCacheInterceptor/CacheInterceptor.java:36-86 | using only the class contracts: one interceptor with two chains returns the 200 text online, and the same text from the store (HTTP/1.0, "OK") once the network fails |

## Left out

- Logging (`Log.i`), `printStackTrace`, and the timing in `oldnow` and `useTime`: they have no effect on results.
- The `Context` field, `setContext` and the `CacheManager` singleton lifecycle: they only locate the store. The interceptor is handed its `CacheManager` directly.
- The persistence and the internal failures of `CacheManager`: the store is a map. In this model a read never fails and a write always succeeds.
- The MD5 algorithm: `encryptMD5` is an arbitrary function.
- OkHttp header lookup: it is case-insensitive and one name can have several values. The model's header map holds, per name, the value `request.header(name)` returns.
- The percent-encoding of form fields: a `Field` holds the encoded name and value that `encodedName(i)` and `encodedValue(i)` return.
- `ResponseBody.create` adding a UTF-8 charset to a content type that lacks one: the model keeps the content type exactly as it is passed at line 117. This also applies to `OnlineResponse` and to the body that `Scenarios.GeocodingStoredThenReplayed` states.
- What OkHttp does with a body created from a null string. This arises when a successful response has no body. The model returns a response whose content is `NullText`.
- Exceptions other than a failing network call, an unreadable body and the StringBuilder index error. For example, runtime exceptions inside OkHttp's builders are not modelled.
- Response fields other than request, code, message, protocol, headers and body. Examples are the handshake and the timestamps.
- A network script that runs out: the model treats every further call as one that throws `IOException`.
- Concurrent use of the shared store by several in-flight requests.
