/**
 * The demo app's geocoding call, a POST form with field `a` sent with
 * `Cache-Control: private`, run through the interceptor: stored on success,
 * replayed when the network is down, and not stored on a non-success status.
 */
module Scenarios {
  import opened Wrappers
  import opened Http
  import opened FormParams
  import opened CacheStore
  import opened Transport
  import opened Interceptor
  import opened InterceptorProps

  const GeocodingUrl := "http://x/geocoding"
  const Lon := "{\"lon\":\"120.5\"}"

  function Geocoding(headers: map<string, string>): Request {
    Request("POST", GeocodingUrl, headers, Some(FormBody([Field("a", "SuzhouCity")])))
  }

  function Upstream(request: Request, code: int, text: string): Response {
    Response(request, code, "", Http1_1, map["Content-Type" := "application/json"], Some(ResponseBody(Some("application/json"), Text(text))))
  }

  /** The stored entry's key is the digest of the URL followed by `a=SuzhouCity`. */
  lemma GeocodingKey(digest: string -> string)
    ensures ParamsOf(Geocoding(map["Cache-Control" := "private"])) == Success("a=SuzhouCity")
    ensures Key(Geocoding(map["Cache-Control" := "private"]), digest) == digest("http://x/geocodinga=SuzhouCity")
  {
    var fields := [Field("a", "SuzhouCity")];
    assert JoinFields(fields) == "a" + "=" + "SuzhouCity" == "a=SuzhouCity";
    assert GeocodingUrl + "a=SuzhouCity" == "http://x/geocodinga=SuzhouCity";
  }

  /** A 200 answer is returned with its text and stored; a later outage replays it. */
  lemma GeocodingStoredThenReplayed(digest: string -> string)
    ensures var request := Geocoding(map["Cache-Control" := "private"]);
      var online := Interception(request, map[], [Delivered(Upstream(request, 200, Lon))], digest);
      var offline := Interception(request, online.entries, [Failed], digest);
      && online.entries == map[digest("http://x/geocodinga=SuzhouCity") := Lon]
      && online.reply.Returned? && online.reply.response.code == 200
      && online.reply.response.body == Some(ResponseBody(Some("application/json"), Text(Lon)))
      && offline.reply == Returned(Response(request, 200, "OK", Http1_0, map[], Some(ResponseBody(None, Text(Lon)))))
      && offline.calls == 1
  {
    var request := Geocoding(map["Cache-Control" := "private"]);
    GeocodingKey(digest);
    var online := Interception(request, map[], [Delivered(Upstream(request, 200, Lon))], digest);
    ReplayAfterOutage(request, request, map[], [Delivered(Upstream(request, 200, Lon))], [Failed], digest);
  }

  /** Without cache headers a 500 is passed on as it came and nothing is stored. */
  lemma PlainServerErrorPassesThrough(digest: string -> string)
    ensures var request := Geocoding(map[]);
      var x := Interception(request, map[], [Delivered(Upstream(request, 500, "oops"))], digest);
      x == Effect(Returned(Upstream(request, 500, "oops")), map[], 1)
  {
  }

  /** A cacheable request answered 404 twice: nothing stored, the second 404 returned. */
  lemma NotFoundIsNotStored(digest: string -> string)
    ensures var request := Geocoding(map["cache" := "true"]);
      var first := Upstream(request, 404, "missing");
      var second := Upstream(request, 404, "still missing");
      Interception(request, map[], [Delivered(first), Delivered(second)], digest)
        == Effect(Returned(second), map[], 2)
  {
  }

  /**
   * The same story told through the objects: one interceptor, one store,
   * two chains; the second chain's only call throws and the store answers.
   */
  method ReplayThroughInterceptor(digest: string -> string) returns (online: Reply, offline: Reply)
    ensures online.Returned? && online.response.code == 200
    ensures online.response.body.Some? && ReadString(online.response.body.value.content) == Success(Some(Lon))
    ensures offline.Returned? && offline.response.protocol == Http1_0 && offline.response.message == "OK"
    ensures offline.response.body.Some? && ReadString(offline.response.body.value.content) == Success(Some(Lon))
  {
    var request := Geocoding(map["Cache-Control" := "private"]);
    var store := new CacheManager(digest, map[]);
    var interceptor := new CacheInterceptor(store);
    var chain1 := new Chain(request, [Delivered(Upstream(request, 200, Lon))]);
    online := interceptor.Intercept(chain1);
    var chain2 := new Chain(request, [Failed]);
    offline := interceptor.Intercept(chain2);
    GeocodingStoredThenReplayed(digest);
  }
}
