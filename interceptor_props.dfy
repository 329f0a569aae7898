/**
 * What `intercept` promises, stated over its functional description
 * Interception: the policy, pass-through, the error before the network
 * call, the success path, the retry on a non-success status, the fallback,
 * the call bound, and the agreement of the write and read keys.
 */
module InterceptorProps {
  import opened Wrappers
  import opened Http
  import opened FormParams
  import opened CacheStore
  import opened Transport
  import opened Interceptor

  /** The text the success path stores: the body's string, with null read as "". */
  function StoredText(c: Content): string {
    if c.Text? then c.text else ""
  }

  // ---- Policy

  /** Any non-empty Cache-Control value opts in, whatever directive it names. */
  lemma PolicyIgnoresDirectives(request: Request, directive: string)
    requires directive != ""
    ensures ShouldCache(request.(headers := request.headers["Cache-Control" := directive]))
  {
  }

  /** Without a usable Cache-Control header, only the exact value "true" of `cache` opts in. */
  lemma PolicyNeedsExactTrue(request: Request)
    requires Header(request, "Cache-Control").None? || Header(request, "Cache-Control") == Some("")
    ensures ShouldCache(request) <==> "cache" in request.headers && request.headers["cache"] == "true"
  {
  }

  /** Every header the library declares opts in, no-store and no-cache included. */
  lemma DeclaredHeadersOptIn(request: Request)
    requires request.headers == map[]
    ensures ShouldCache(request.(headers := map["cache" := "true"]))
    ensures ShouldCache(request.(headers := map["Cache-Control" := "private"]))
    ensures ShouldCache(request.(headers := map["Cache-Control" := "max-age=xxx"]))
    ensures ShouldCache(request.(headers := map["Cache-Control" := "no-cache"]))
    ensures ShouldCache(request.(headers := map["Cache-Control" := "public"]))
    ensures ShouldCache(request.(headers := map["Cache-Control" := "no-store"]))
    ensures !ShouldCache(request)
    ensures !ShouldCache(request.(headers := map["cache" := "TRUE"]))
    ensures !ShouldCache(request.(headers := map["Cache-Control" := ""]))
  {
  }

  // ---- Pass-through and the error before the try

  /** Without opting in: one call, its outcome passed on unchanged, the store untouched. */
  lemma PassThrough(request: Request, entries: map<string, string>, outcomes: seq<Outcome>, digest: string -> string)
    requires !ShouldCache(request)
    ensures Interception(request, entries, outcomes, digest) == Effect(Relay(At(outcomes, 0)), entries, 1)
  {
  }

  /** A cacheable POST form without fields throws before any network call. */
  lemma EmptyFormThrowsBeforeProceed(request: Request, entries: map<string, string>, outcomes: seq<Outcome>, digest: string -> string)
    requires ShouldCache(request) && IsPostForm(request) && request.body.value.fields == []
    ensures Interception(request, entries, outcomes, digest) == Effect(Thrown(StringIndexOutOfBounds), entries, 0)
  {
  }

  // ---- The try block

  /**
   * A successful first response with a readable body: one call; the key now
   * holds the body text (null read as ""), every other key is as before; the
   * reply keeps the upstream code, message and protocol and reads back as that
   * same text.
   */
  lemma SuccessStoresReturnedText(request: Request, entries: map<string, string>, outcomes: seq<Outcome>, digest: string -> string)
    requires ShouldCache(request) && ParamsOf(request).Success?
    requires At(outcomes, 0).Delivered? && IsSuccessful(At(outcomes, 0).response)
    requires At(outcomes, 0).response.body.Some? && !At(outcomes, 0).response.body.value.content.Unreadable?
    ensures var x := Interception(request, entries, outcomes, digest);
      var upstream := At(outcomes, 0).response;
      var text := StoredText(upstream.body.value.content);
      && x.calls == 1
      && x.entries == entries[Key(request, digest) := text]
      && Lookup(x.entries, Key(request, digest)) == Some(text)
      && x.reply.Returned?
      && x.reply.response.code == upstream.code
      && x.reply.response.message == upstream.message
      && x.reply.response.protocol == upstream.protocol
      && x.reply.response.body.Some?
      && ReadString(x.reply.response.body.value.content) == Success(Some(text))
  {
  }

  /** A successful first response without a body: nothing is stored, one call. */
  lemma SuccessWithoutBodyStoresNothing(request: Request, entries: map<string, string>, outcomes: seq<Outcome>, digest: string -> string)
    requires ShouldCache(request) && ParamsOf(request).Success?
    requires At(outcomes, 0).Delivered? && IsSuccessful(At(outcomes, 0).response)
    requires At(outcomes, 0).response.body.None?
    ensures Interception(request, entries, outcomes, digest)
      == Effect(Returned(OnlineResponse(At(outcomes, 0).response, None)), entries, 1)
  {
  }

  /**
   * A non-success first response is never stored; the second call's response
   * is what is returned, and if that call throws the fallback runs after two calls.
   */
  lemma NonSuccessForwardsAgain(request: Request, entries: map<string, string>, outcomes: seq<Outcome>, digest: string -> string)
    requires ShouldCache(request) && ParamsOf(request).Success?
    requires At(outcomes, 0).Delivered? && !IsSuccessful(At(outcomes, 0).response)
    ensures var x := Interception(request, entries, outcomes, digest);
      && x.entries == entries
      && x.calls >= 2
      && (At(outcomes, 1).Delivered? ==> x.reply == Returned(At(outcomes, 1).response) && x.calls == 2)
      && (At(outcomes, 1).Failed? ==> x == Fallback(request, entries, outcomes, digest, 2))
  {
  }

  /** A first call that throws, or a successful body that cannot be read, goes to the fallback. */
  lemma ExceptionFallsBack(request: Request, entries: map<string, string>, outcomes: seq<Outcome>, digest: string -> string)
    requires ShouldCache(request) && ParamsOf(request).Success?
    requires || At(outcomes, 0).Failed?
             || (IsSuccessful(At(outcomes, 0).response) && At(outcomes, 0).response.body.Some?
                 && At(outcomes, 0).response.body.value.content.Unreadable?)
    ensures Interception(request, entries, outcomes, digest) == Fallback(request, entries, outcomes, digest, 1)
  {
  }

  // ---- The catch block

  /** A hit replays the cached text as 200 "OK" over HTTP/1.0 and leaves the store as it was. */
  lemma FallbackHit(request: Request, entries: map<string, string>, outcomes: seq<Outcome>, digest: string -> string, made: nat)
    requires ParamsOf(request).Success? && Key(request, digest) in entries
    ensures Fallback(request, entries, outcomes, digest, made) == Effect(
      Returned(Response(request, 200, "OK", Http1_0, map[], Some(ResponseBody(None, Text(entries[Key(request, digest)]))))),
      entries, made)
  {
  }

  /** A miss makes one more call and passes its outcome on. */
  lemma FallbackMiss(request: Request, entries: map<string, string>, outcomes: seq<Outcome>, digest: string -> string, made: nat)
    requires ParamsOf(request).Success? && Key(request, digest) !in entries
    ensures Fallback(request, entries, outcomes, digest, made) == Effect(Relay(At(outcomes, made)), entries, made + 1)
  {
  }

  /** A third call happens only after a non-success status, a throwing retry and a cache miss. */
  lemma ThirdCallNeedsTwoFailuresAndMiss(request: Request, entries: map<string, string>, outcomes: seq<Outcome>, digest: string -> string)
    requires Interception(request, entries, outcomes, digest).calls == 3
    ensures ShouldCache(request) && ParamsOf(request).Success?
    ensures At(outcomes, 0).Delivered? && !IsSuccessful(At(outcomes, 0).response)
    ensures At(outcomes, 1).Failed? && Key(request, digest) !in entries
  {
  }

  /** Only the request's own key can change, and only after a successful first response. */
  lemma StoreFrame(request: Request, entries: map<string, string>, outcomes: seq<Outcome>, digest: string -> string)
    ensures var x := Interception(request, entries, outcomes, digest);
      && (x.entries != entries ==>
            ShouldCache(request) && ParamsOf(request).Success?
            && At(outcomes, 0).Delivered? && IsSuccessful(At(outcomes, 0).response)
            && x.entries == entries[Key(request, digest) := x.entries[Key(request, digest)]])
      && entries.Keys <= x.entries.Keys
  {
  }

  // ---- Keys

  /**
   * The write key and the fallback read key agree: after a stored success,
   * a cacheable request for the same URL and parameters whose call throws is
   * answered from the store with the very text the first reply carried.
   */
  lemma ReplayAfterOutage(first: Request, second: Request, entries: map<string, string>, o1: seq<Outcome>, o2: seq<Outcome>, digest: string -> string)
    requires ShouldCache(first) && ShouldCache(second) && ParamsOf(first).Success?
    requires second.url == first.url && ParamsOf(second) == ParamsOf(first)
    requires At(o1, 0).Delivered? && IsSuccessful(At(o1, 0).response)
    requires At(o1, 0).response.body.Some? && !At(o1, 0).response.body.value.content.Unreadable?
    requires At(o2, 0).Failed?
    ensures var x1 := Interception(first, entries, o1, digest);
      var x2 := Interception(second, x1.entries, o2, digest);
      && x1.reply.Returned? && x1.reply.response.body.Some?
      && x2 == Effect(
        Returned(Response(second, 200, "OK", Http1_0, map[], Some(ResponseBody(None, Text(StoredText(At(o1, 0).response.body.value.content)))))),
        x1.entries, 1)
      && x2.reply.response.body.Some?
      && ReadString(x2.reply.response.body.value.content) == ReadString(x1.reply.response.body.value.content)
  {
    SuccessStoresReturnedText(first, entries, o1, digest);
    var x1 := Interception(first, entries, o1, digest);
    ExceptionFallsBack(second, x1.entries, o2, digest);
    FallbackHit(second, x1.entries, o2, digest, 1);
  }

  /**
   * The URL and the parameter string are joined without a separator, so a
   * non-POST request whose URL already ends in the parameter string shares
   * its key with the POST form, whatever the digest.
   */
  lemma QueryAndFormShareKey(form: Request, other: Request, digest: string -> string)
    requires IsPostForm(form) && form.body.value.fields != []
    requires !IsPostForm(other) && other.url == form.url + JoinFields(form.body.value.fields)
    ensures ParamsOf(form).Success? && ParamsOf(other).Success?
    ensures Key(other, digest) == Key(form, digest)
  {
    assert other.url + "" == other.url;
  }
}
