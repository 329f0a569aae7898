/**
 * CacheInterceptor: decides from two request headers whether to cache,
 * keys the cache by digest(url + form parameters), stores successful bodies,
 * and falls back to the store when the network call throws.
 */
module Interceptor {
  import opened Wrappers
  import opened Http
  import opened FormParams
  import opened CacheStore
  import opened Transport

  /**
   * The cache policy: header `cache` is exactly "true", or header
   * `Cache-Control` is present and not empty. Directives are not parsed.
   */
  predicate ShouldCache(request: Request)
    ensures ShouldCache(request) ==> "cache" in request.headers || "Cache-Control" in request.headers
    ensures "Cache-Control" !in request.headers ==> (ShouldCache(request) <==> Header(request, "cache") == Some("true"))
  {
    Header(request, "cache") == Some("true")
    || (Header(request, "Cache-Control").Some? && Header(request, "Cache-Control").value != "")
  }

  /** A POST whose body is a FormBody: the only request whose fields are read. */
  predicate IsPostForm(request: Request) {
    request.verb == "POST" && request.body.Some? && request.body.value.FormBody?
  }

  /**
   * The result of `getPostParams`: the comma-joined pairs of a POST form,
   * the empty string for any other request, and a thrown
   * StringIndexOutOfBoundsException for a POST form with no fields.
   */
  function ParamsOf(request: Request): (r: Result<string, Exception>)
    ensures r.Failure? <==> IsPostForm(request) && request.body.value.fields == []
    ensures r.Failure? ==> r.error == StringIndexOutOfBounds
    ensures !IsPostForm(request) ==> r == Success("")
  {
    if IsPostForm(request) then
      var fields := request.body.value.fields;
      if fields == [] then Failure(StringIndexOutOfBounds) else Success(JoinFields(fields))
    else Success("")
  }

  /** The cache key of a request whose parameters could be built. */
  function Key(request: Request, digest: string -> string): string
    requires ParamsOf(request).Success?
  {
    digest(request.url + ParamsOf(request).value)
  }

  /**
   * `getOnlineResponse`: a new response with the upstream code, message,
   * protocol and request, the upstream body's content type, no headers, and
   * a body that reads back as `text` (None stands for Java null).
   */
  function OnlineResponse(upstream: Response, text: Option<string>): (r: Response)
    ensures r.code == upstream.code && r.message == upstream.message
    ensures r.protocol == upstream.protocol && r.request == upstream.request
    ensures r.headers == map[]
    ensures r.body.Some? && ReadString(r.body.value.content) == Success(text)
    ensures r.body.value.contentType == (if upstream.body.Some? then upstream.body.value.contentType else None)
    ensures IsSuccessful(r) <==> IsSuccessful(upstream)
  {
    var contentType := if upstream.body.None? then None else upstream.body.value.contentType;
    var content := if text.None? then NullText else Text(text.value);
    Response(upstream.request, upstream.code, upstream.message, upstream.protocol, map[], Some(ResponseBody(contentType, content)))
  }

  /**
   * `getCacheResponse` once the store has been read: nothing on a miss; on a
   * hit a successful replay (200, "OK", HTTP/1.0) of `request` whose body
   * reads back as the cached text.
   */
  function CacheResponse(request: Request, cached: Option<string>): (r: Option<Response>)
    ensures r.Some? <==> cached.Some?
    ensures r.Some? ==> r.value.code == 200 && r.value.message == "OK" && r.value.protocol == Http1_0
    ensures r.Some? ==> r.value.request == request && r.value.headers == map[] && IsSuccessful(r.value)
    ensures r.Some? ==> r.value.body.Some? && ReadString(r.value.body.value.content) == Success(cached)
  {
    if cached.None? then None
    else Some(Response(request, 200, "OK", Http1_0, map[], Some(ResponseBody(None, Text(cached.value)))))
  }

  /** What one `intercept` does: its reply, the store afterwards, and how many `proceed` calls it made. */
  datatype Effect = Effect(reply: Reply, entries: map<string, string>, calls: nat)

  /** The catch block: replay from the store, or forward once more on a miss. */
  function Fallback(request: Request, entries: map<string, string>, outcomes: seq<Outcome>, digest: string -> string, made: nat): (x: Effect)
    ensures x.entries == entries
    ensures x.calls == made || x.calls == made + 1
  {
    match ParamsOf(request)
    case Failure(e) => Effect(Thrown(e), entries, made)
    case Success(params) =>
      match CacheResponse(request, Lookup(entries, digest(request.url + params)))
      case Some(replay) => Effect(Returned(replay), entries, made)
      case None => Effect(Relay(At(outcomes, made)), entries, made + 1)
  }

  /** The try block, entered with the key already computed. */
  function Attempt(request: Request, entries: map<string, string>, outcomes: seq<Outcome>, digest: string -> string, key: string): (x: Effect)
    ensures 1 <= x.calls <= 3
  {
    match At(outcomes, 0)
    case Failed => Fallback(request, entries, outcomes, digest, 1)
    case Delivered(response) =>
      if !IsSuccessful(response) then
        match At(outcomes, 1)
        case Delivered(second) => Effect(Returned(second), entries, 2)
        case Failed => Fallback(request, entries, outcomes, digest, 2)
      else if response.body.None? then
        Effect(Returned(OnlineResponse(response, None)), entries, 1)
      else
        match ReadString(response.body.value.content)
        case Failure(_) => Fallback(request, entries, outcomes, digest, 1)
        case Success(read) =>
          var text := if read.None? then "" else read.value;
          Effect(Returned(OnlineResponse(response, Some(text))), entries[key := text], 1)
  }

  /**
   * The whole of `intercept` for `request`, the store `entries` and the
   * network script `outcomes`. A request that does not opt in is forwarded
   * once; one that does makes at most three calls.
   */
  function Interception(request: Request, entries: map<string, string>, outcomes: seq<Outcome>, digest: string -> string): (x: Effect)
    ensures !ShouldCache(request) ==> x.calls == 1 && x.entries == entries
    ensures x.calls <= 3
  {
    if !ShouldCache(request) then Effect(Relay(At(outcomes, 0)), entries, 1)
    else match ParamsOf(request)
      case Failure(e) => Effect(Thrown(e), entries, 0)
      case Success(params) => Attempt(request, entries, outcomes, digest, digest(request.url + params))
  }

  class CacheInterceptor {
    /** The store `CacheManager.getInstance(context)` resolves to. */
    const cache: CacheManager

    constructor (cache: CacheManager)
      ensures this.cache == cache
    {
      this.cache := cache;
    }

    /** `getPostParams`: builds `n=v,` per field in a StringBuilder, then cuts the last character. */
    static method PostParams(request: Request) returns (r: Result<string, Exception>)
      ensures r == ParamsOf(request)
    {
      var reqBodyStr := "";
      if request.verb == "POST" {
        var sb := "";
        if request.body.Some? && request.body.value.FormBody? {
          // getPostParams's `body != null` test always passes for a FormBody instance.
          var fields := request.body.value.fields;
          for i := 0 to |fields|
            invariant sb == Terminated(fields[..i])
          {
            assert fields[..i + 1][..i] == fields[..i];
            sb := sb + fields[i].name + "=" + fields[i].value + ",";
          }
          assert fields[..|fields|] == fields;
          var cut := DeleteRange(sb, |sb| - 1, |sb|);
          if cut.Failure? {
            return Failure(cut.error);
          }
          TerminatedIsJoinedPlusComma(fields);
          assert cut.value == sb[..|sb| - 1];
          sb := cut.value;
          reqBodyStr := sb;
          // The builder is emptied after its text has been taken.
          sb := DeleteRange(sb, 0, |sb|).value;
        }
      }
      r := Success(reqBodyStr);
    }

    /** `getCacheResponse`: rebuilds the key, reads the store, and builds the replay. */
    method GetCacheResponse(request: Request) returns (r: Result<Option<Response>, Exception>)
      ensures ParamsOf(request).Failure? ==> r == Failure(ParamsOf(request).error)
      ensures ParamsOf(request).Success? ==>
        r == Success(CacheResponse(request, Lookup(cache.entries, Key(request, cache.encryptMD5))))
    {
      var params := PostParams(request);
      if params.Failure? {
        return Failure(params.error);
      }
      var cacheStr := cache.GetCache(cache.encryptMD5(request.url + params.value));
      r := Success(CacheResponse(request, cacheStr));
    }

    /**
     * `intercept(chain)`: the reply, the store afterwards and the calls made
     * are those of Interception; each call forwards the chain's own request.
     */
    method Intercept(chain: Chain) returns (reply: Reply)
      modifies chain, cache
      ensures var x := Interception(chain.request, old(cache.entries), old(chain.outcomes), cache.encryptMD5);
        && reply == x.reply
        && cache.entries == x.entries
        && chain.outcomes == Drop(old(chain.outcomes), x.calls)
        && chain.sent == old(chain.sent) + Repeat(chain.request, x.calls)
    {
      var request := chain.request;
      if ShouldCache(request) {
        var url := request.url;
        var reqBodyStr := PostParams(request);
        if reqBodyStr.Failure? {
          return Thrown(reqBodyStr.error);
        }
        var key := cache.encryptMD5(url + reqBodyStr.value);
        // try
        var caught := false;
        var first := chain.Proceed(request);
        if first.Failed? {
          caught := true;
        } else {
          var response := first.response;
          if IsSuccessful(response) {
            var responStr: Option<string> := None;
            if response.body.Some? {
              var read := ReadString(response.body.value.content);
              if read.Failure? {
                caught := true;
              } else {
                responStr := if read.value.None? then Some("") else read.value;
                cache.SetCache(key, responStr.value);
              }
            }
            if !caught {
              return Returned(OnlineResponse(response, responStr));
            }
          } else {
            var second := chain.Proceed(request);
            if second.Delivered? {
              return Returned(second.response);
            }
            caught := true;
          }
        }
        // catch (Exception e)
        var cached := GetCacheResponse(request);
        match cached
        case Failure(e) =>
          reply := Thrown(e);
        case Success(Some(replay)) =>
          reply := Returned(replay);
        case Success(None) =>
          var last := chain.Proceed(request);
          reply := Relay(last);
      } else {
        var outcome := chain.Proceed(request);
        reply := Relay(outcome);
      }
    }
  }
}
