/**
 * The image optimisation Lambda adapter: header normalisation, the bucket guard,
 * parameter validation, the fixed 200 and 500 results, the two handlers' step
 * sequences, and the source-locating part of the download handler.
 * The Next.js image routines, S3, HTTPS and base64 are collaborators passed in.
 */
module ImageOptimization {
  import opened Wrappers
  import opened Text

  type Headers = map<string, string>
  type Query = map<string, string>

  newtype byte = x: int | 0 <= x < 256

  /** A value thrown by a step: an `Error`-like object with its `name` and `message`. */
  datatype Thrown = Thrown(name: string, message: string)

  function Error(message: string): Thrown {
    Thrown("Error", message)
  }

  /** The `queryStringParameters` field of a gateway event: `null`, absent, or an object. */
  datatype RawQuery = NullQuery | UndefinedQuery | QueryObject(params: Query)

  /** The part of the gateway event the handlers read; `headers` lists `Object.entries` in order. */
  datatype ImageEvent = ImageEvent(headers: Option<seq<(string, string)>>, queryStringParameters: RawQuery)

  /** `BUCKET_NAME` and `BUCKET_KEY_PREFIX`, read from the environment at start-up. */
  datatype Env = Env(bucketName: Option<string>, bucketKeyPrefix: Option<string>)

  datatype ImageParams = ImageParams(href: string, isAbsolute: bool, width: nat, quality: nat, mimeType: string)

  /** What `ImageOptimizerCache.validateParams` returns: parameters, or an object with `errorMessage`. */
  datatype Validation = ValidParams(params: ImageParams) | Invalid(errorMessage: string)

  /** What `imageOptimizer` resolves to. */
  datatype OptimizedImage = OptimizedImage(buffer: seq<byte>, maxAge: nat, contentType: string)

  /** The Next.js routines and the encoder the adapter delegates to. */
  datatype NextImage = NextImage(
    validateParams: (Headers, Option<Query>) -> Validation,
    imageOptimizer: (Headers, ImageParams) -> Result<OptimizedImage, Thrown>,
    base64: seq<byte> -> string)

  /** The buffered Lambda result; `isBase64Encoded` is `None` when the field is not set. */
  datatype LambdaResult = LambdaResult(statusCode: int, headers: Headers, body: string, isBase64Encoded: Option<bool>)

  /** A call the handler makes into Next.js, in the order made. */
  datatype NextCall = ValidateCall(headers: Headers, query: Option<Query>) | OptimizeCall(headers: Headers, params: ImageParams)

  // ---------------------------------------------------------------------------
  // Header normalisation
  // ---------------------------------------------------------------------------

  /** Entry `i` is the last one whose lowercased key is `key`. */
  ghost predicate LastEntryFor(entries: seq<(string, string)>, key: string, i: int) {
    && 0 <= i < |entries|
    && Lower(entries[i].0) == key
    && forall j :: i < j < |entries| ==> Lower(entries[j].0) != key
  }

  lemma LastEntryExtends(entries: seq<(string, string)>, key: string, i: int)
    requires |entries| > 0
    requires LastEntryFor(entries[..|entries| - 1], key, i)
    requires Lower(entries[|entries| - 1].0) != key
    ensures LastEntryFor(entries, key, i)
  {
    var init := entries[..|entries| - 1];
    forall j | i < j < |entries|
      ensures Lower(entries[j].0) != key
    {
      if j < |entries| - 1 {
        assert entries[j] == init[j];
      }
    }
  }

  /**
   * `normalizeHeaderKeysToLowercase`: a fold over the entries that stores each value
   * under its lowercased key, so a later entry overwrites an earlier one.
   */
  function NormalizeHeaderKeys(entries: seq<(string, string)>): (r: Headers)
    ensures |r| <= |entries|
    ensures entries != [] ==>
      var last := entries[|entries| - 1];
      Lower(last.0) in r && r[Lower(last.0)] == last.1
  {
    if entries == [] then map[]
    else
      var last := entries[|entries| - 1];
      NormalizeHeaderKeys(entries[..|entries| - 1])[Lower(last.0) := last.1]
  }

  /**
   * After normalisation every key is lower case, the keys are exactly the lowercased
   * input keys, and each value is the one of the last entry with that lowercased key.
   */
  lemma {:induction false} NormalizeHeaderKeysSpec(entries: seq<(string, string)>)
    ensures var r := NormalizeHeaderKeys(entries);
      && (forall k :: k in r ==> IsLowerCase(k))
      && (forall i :: 0 <= i < |entries| ==> Lower(entries[i].0) in r)
      && (forall k :: k in r ==> exists i :: LastEntryFor(entries, k, i) && r[k] == entries[i].1)
  {
    if entries != [] {
      var init := entries[..|entries| - 1];
      var last := entries[|entries| - 1];
      NormalizeHeaderKeysSpec(init);
      var acc := NormalizeHeaderKeys(init);
      var r := NormalizeHeaderKeys(entries);
      assert r == acc[Lower(last.0) := last.1];
      LowerIsLowerCase(last.0);
      forall i | 0 <= i < |entries|
        ensures Lower(entries[i].0) in r
      {
        if i < |entries| - 1 {
          assert entries[i] == init[i];
        }
      }
      forall k | k in r
        ensures exists i :: LastEntryFor(entries, k, i) && r[k] == entries[i].1
      {
        if k == Lower(last.0) {
          assert LastEntryFor(entries, k, |entries| - 1);
        } else {
          var i :| LastEntryFor(init, k, i) && acc[k] == init[i].1;
          LastEntryExtends(entries, k, i);
          assert entries[i] == init[i];
        }
      }
    }
  }

  /** The last entry for a lowercased key is the one whose value survives. */
  lemma NormalizeLastWins(entries: seq<(string, string)>, i: int)
    requires 0 <= i < |entries|
    requires forall j :: i < j < |entries| ==> Lower(entries[j].0) != Lower(entries[i].0)
    ensures Lower(entries[i].0) in NormalizeHeaderKeys(entries)
    ensures NormalizeHeaderKeys(entries)[Lower(entries[i].0)] == entries[i].1
  {
    NormalizeHeaderKeysSpec(entries);
    var key := Lower(entries[i].0);
    var r := NormalizeHeaderKeys(entries);
    var w :| LastEntryFor(entries, key, w) && r[key] == entries[w].1;
  }

  /** Two keys that differ only by case collapse into one entry holding the later value. */
  lemma NormalizeCollision(entries: seq<(string, string)>, i: int, j: int)
    requires 0 <= i < j < |entries|
    requires Lower(entries[i].0) == Lower(entries[j].0)
    requires forall m :: j < m < |entries| ==> Lower(entries[m].0) != Lower(entries[j].0)
    ensures Lower(entries[i].0) in NormalizeHeaderKeys(entries)
    ensures NormalizeHeaderKeys(entries)[Lower(entries[i].0)] == entries[j].1
  {
    NormalizeLastWins(entries, j);
  }

  // ---------------------------------------------------------------------------
  // Guard and validation
  // ---------------------------------------------------------------------------

  /** What `Object.entries` throws when the event has no headers object. */
  const HeadersMissingError := Thrown("TypeError", "Cannot convert undefined or null to object")

  const BucketError := Error("Bucket name must be defined!")

  /** `!BUCKET_NAME` is false exactly when the name is set and non-empty. */
  predicate BucketConfigured(bucketName: Option<string>) {
    bucketName.Some? && bucketName.value != ""
  }

  /** `ensureBucketExists`: the error it throws, if any. */
  function EnsureBucketExists(bucketName: Option<string>): (thrown: Option<Thrown>)
    ensures thrown.None? <==> bucketName.Some? && |bucketName.value| > 0
    ensures thrown.Some? ==> thrown.value.message == "Bucket name must be defined!"
  {
    if BucketConfigured(bucketName) then None else Some(BucketError)
  }

  /** `queryString === null ? undefined : queryString`. */
  function QueryArgument(q: RawQuery): (r: Option<Query>)
    ensures r.Some? <==> q.QueryObject?
    ensures r.Some? ==> r.value == q.params
  {
    match q
    case QueryObject(params) => Some(params)
    case _ => None
  }

  /** `validateImageParams`: an `errorMessage` becomes a thrown `Error` with that message. */
  function ValidateImageParams(next: NextImage, headers: Headers, query: Option<Query>): (r: Result<ImageParams, Thrown>)
    ensures r.Success? <==> next.validateParams(headers, query).ValidParams?
    ensures r.Success? ==> r.value == next.validateParams(headers, query).params
    ensures r.Failure? ==> r.error == Error(next.validateParams(headers, query).errorMessage)
  {
    match next.validateParams(headers, query)
    case ValidParams(params) => Success(params)
    case Invalid(message) => Failure(Error(message))
  }

  // ---------------------------------------------------------------------------
  // Results
  // ---------------------------------------------------------------------------

  const CacheControlPrefix := "public,max-age="
  const CacheControlSuffix := ",immutable"

  /** The `Cache-Control` value both results use: `public,max-age=<n>,immutable`. */
  function ImmutableCacheControl(maxAge: nat): (cc: string)
    ensures |cc| > |CacheControlPrefix| + |CacheControlSuffix|
    ensures StartsWith(cc, "public,max-age=") && EndsWith(cc, ",immutable")
    ensures var digits := cc[|CacheControlPrefix|..|cc| - |CacheControlSuffix|];
      && |digits| >= 1
      && (forall i :: 0 <= i < |digits| ==> IsDigit(digits[i]))
      && (digits[0] == '0' ==> maxAge == 0)
  {
    var cc := CacheControlPrefix + DecimalString(maxAge) + CacheControlSuffix;
    assert cc[..|CacheControlPrefix|] == CacheControlPrefix;
    assert cc[|cc| - |CacheControlSuffix|..] == CacheControlSuffix;
    assert cc[|CacheControlPrefix|..|cc| - |CacheControlSuffix|] == DecimalString(maxAge);
    cc
  }

  /** The max-age a downstream cache reads from such a `Cache-Control` value. */
  function MaxAgeOf(cacheControl: string): Option<nat> {
    if |cacheControl| >= |CacheControlPrefix| + |CacheControlSuffix|
       && StartsWith(cacheControl, CacheControlPrefix) && EndsWith(cacheControl, CacheControlSuffix)
    then ParseDecimal(cacheControl[|CacheControlPrefix|..|cacheControl| - |CacheControlSuffix|])
    else None
  }

  /** The `Cache-Control` value carries exactly the max-age it was built from. */
  lemma CacheControlRoundTrip(maxAge: nat)
    ensures MaxAgeOf(ImmutableCacheControl(maxAge)) == Some(maxAge)
  {
    var digits := DecimalString(maxAge);
    var cc := ImmutableCacheControl(maxAge);
    assert cc[..|CacheControlPrefix|] == CacheControlPrefix;
    assert cc[|cc| - |CacheControlSuffix|..] == CacheControlSuffix;
    assert cc[|CacheControlPrefix|..|cc| - |CacheControlSuffix|] == digits;
    DecimalRoundTrip(maxAge);
  }

  /** `buildSuccessResponse`. */
  function BuildSuccessResponse(result: OptimizedImage, base64: seq<byte> -> string): (r: LambdaResult)
    ensures r.statusCode == 200 && r.isBase64Encoded == Some(true)
    ensures r.headers.Keys == {"Vary", "Cache-Control", "Content-Type"}
    ensures r.headers["Vary"] == "Accept"
    ensures r.headers["Cache-Control"] == ImmutableCacheControl(result.maxAge)
    ensures MaxAgeOf(r.headers["Cache-Control"]) == Some(result.maxAge)
    ensures r.headers["Content-Type"] == result.contentType
    ensures r.body == base64(result.buffer)
  {
    CacheControlRoundTrip(result.maxAge);
    LambdaResult(
      200,
      map["Vary" := "Accept",
          "Cache-Control" := ImmutableCacheControl(result.maxAge),
          "Content-Type" := result.contentType],
      base64(result.buffer),
      Some(true))
  }

  /** `Error.prototype.toString`: the name, the message, or both joined by ": ". */
  function ErrorToString(e: Thrown): string {
    if e.name == "" then e.message
    else if e.message == "" then e.name
    else e.name + ": " + e.message
  }

  /** `e?.message || e?.toString() || e`, for an error whose name or message is non-empty. */
  function FailureBody(e: Thrown): (body: string)
    ensures e.message != "" ==> body == e.message
    ensures e.message == "" ==> body == e.name
  {
    if e.message != "" then e.message else ErrorToString(e)
  }

  /** `buildFailureResponse`: a 500 that a client may retry after one minute. */
  function BuildFailureResponse(e: Thrown): (r: LambdaResult)
    ensures r.statusCode == 500 && r.isBase64Encoded.None?
    ensures r.headers.Keys == {"Vary", "Cache-Control", "Content-Type"}
    ensures r.headers["Vary"] == "Accept"
    ensures r.headers["Cache-Control"] == "public,max-age=60,immutable"
    ensures MaxAgeOf(r.headers["Cache-Control"]) == Some(60)
    ensures r.headers["Content-Type"] == "application/json"
    ensures r.body == FailureBody(e)
  {
    CacheControlRoundTrip(60);
    assert DecimalString(60) == "60";
    LambdaResult(
      500,
      map["Vary" := "Accept",
          "Cache-Control" := ImmutableCacheControl(60),
          "Content-Type" := "application/json"],
      FailureBody(e),
      None)
  }

  // ---------------------------------------------------------------------------
  // Handlers
  // ---------------------------------------------------------------------------

  /** The headers the steps after normalisation see. */
  function EventHeaders(event: ImageEvent): Headers
    requires event.headers.Some?
  {
    NormalizeHeaderKeys(event.headers.value)
  }

  /** The steps inside the handlers' `try`: normalise, guard, validate, optimise. */
  function ImagePipeline(env: Env, event: ImageEvent, next: NextImage): (r: Result<OptimizedImage, Thrown>)
    ensures event.headers.None? ==> r == Failure(HeadersMissingError)
    ensures event.headers.Some? && !BucketConfigured(env.bucketName) ==> r == Failure(BucketError)
    ensures event.headers.Some? && BucketConfigured(env.bucketName) ==>
      var validation := next.validateParams(EventHeaders(event), QueryArgument(event.queryStringParameters));
      && (validation.Invalid? ==> r == Failure(Error(validation.errorMessage)))
      && (validation.ValidParams? ==> r == next.imageOptimizer(EventHeaders(event), validation.params))
    ensures r.Success? <==>
      && event.headers.Some?
      && BucketConfigured(env.bucketName)
      && var query := QueryArgument(event.queryStringParameters);
         && next.validateParams(EventHeaders(event), query).ValidParams?
         && next.imageOptimizer(EventHeaders(event), next.validateParams(EventHeaders(event), query).params).Success?
    ensures r.Success? ==>
      r.value == next.imageOptimizer(EventHeaders(event),
        next.validateParams(EventHeaders(event), QueryArgument(event.queryStringParameters)).params).value
  {
    if event.headers.None? then Failure(HeadersMissingError)
    else
      var headers := NormalizeHeaderKeys(event.headers.value);
      var guard := EnsureBucketExists(env.bucketName);
      if guard.Some? then Failure(guard.value)
      else
        match ValidateImageParams(next, headers, QueryArgument(event.queryStringParameters))
        case Failure(e) => Failure(e)
        case Success(params) => next.imageOptimizer(headers, params)
  }

  /** The step sequence both handlers run, and the calls it makes into Next.js. */
  method RunImagePipeline(env: Env, event: ImageEvent, next: NextImage)
    returns (outcome: Result<OptimizedImage, Thrown>, calls: seq<NextCall>)
    ensures outcome == ImagePipeline(env, event, next)
    ensures !(event.headers.Some? && BucketConfigured(env.bucketName)) ==> calls == []
    ensures event.headers.Some? && BucketConfigured(env.bucketName) ==>
      && |calls| >= 1
      && calls[0] == ValidateCall(EventHeaders(event), QueryArgument(event.queryStringParameters))
    ensures |calls| <= 2
    ensures |calls| == 2 <==>
      && event.headers.Some? && BucketConfigured(env.bucketName)
      && next.validateParams(EventHeaders(event), QueryArgument(event.queryStringParameters)).ValidParams?
    ensures |calls| == 2 ==>
      calls[1] == OptimizeCall(EventHeaders(event),
        next.validateParams(EventHeaders(event), QueryArgument(event.queryStringParameters)).params)
  {
    calls := [];
    if event.headers.None? {
      outcome := Failure(HeadersMissingError);
      return;
    }
    var headers := NormalizeHeaderKeys(event.headers.value);
    var guard := EnsureBucketExists(env.bucketName);
    if guard.Some? {
      outcome := Failure(guard.value);
      return;
    }
    var query := QueryArgument(event.queryStringParameters);
    calls := calls + [ValidateCall(headers, query)];
    var params := ValidateImageParams(next, headers, query);
    if params.Failure? {
      outcome := Failure(params.error);
      return;
    }
    calls := calls + [OptimizeCall(headers, params.value)];
    outcome := next.imageOptimizer(headers, params.value);
  }

  /** `normalHandler`: every failure of a step becomes the well-formed 500 result. */
  method NormalHandler(env: Env, event: ImageEvent, next: NextImage) returns (res: LambdaResult, calls: seq<NextCall>)
    ensures res.statusCode == 200 || res.statusCode == 500
    ensures res.statusCode == 200 <==> ImagePipeline(env, event, next).Success?
    ensures ImagePipeline(env, event, next).Success? ==>
      res == BuildSuccessResponse(ImagePipeline(env, event, next).value, next.base64)
    ensures ImagePipeline(env, event, next).Failure? ==>
      res == BuildFailureResponse(ImagePipeline(env, event, next).error)
    ensures !(event.headers.Some? && BucketConfigured(env.bucketName)) ==> calls == []
  {
    var outcome;
    outcome, calls := RunImagePipeline(env, event, next);
    match outcome
    case Success(result) =>
      res := BuildSuccessResponse(result, next.base64);
    case Failure(e) =>
      res := BuildFailureResponse(e);
  }

  /** What `streamSuccess` and `streamError` hand to the response stream. */
  datatype StreamFrame = StreamSuccess(result: OptimizedImage) | StreamError(statusCode: int, error: Thrown)

  /** The Lambda response stream, as the sequence of frames written to it. */
  class ImageResponseStream {
    var frames: seq<StreamFrame>

    constructor ()
      ensures frames == []
    {
      frames := [];
    }

    method Write(frame: StreamFrame)
      modifies this
      ensures frames == old(frames) + [frame]
    {
      frames := frames + [frame];
    }
  }

  /** `streamHandler`: the same steps, with one frame written for the outcome. */
  method StreamHandler(env: Env, event: ImageEvent, next: NextImage, responseStream: ImageResponseStream)
    returns (calls: seq<NextCall>)
    modifies responseStream
    ensures responseStream.frames == old(responseStream.frames) + [
      match ImagePipeline(env, event, next)
      case Success(result) => StreamSuccess(result)
      case Failure(e) => StreamError(500, e)]
    ensures !(event.headers.Some? && BucketConfigured(env.bucketName)) ==> calls == []
  {
    var outcome;
    outcome, calls := RunImagePipeline(env, event, next);
    match outcome
    case Success(result) =>
      responseStream.Write(StreamSuccess(result));
    case Failure(e) =>
      responseStream.Write(StreamError(500, e));
  }

  // ---------------------------------------------------------------------------
  // Download handler: where the source image comes from
  // ---------------------------------------------------------------------------

  /** `/^https?:\/\//` tested against the lowercased href. */
  function IsRemoteHref(href: string): (remote: bool)
    ensures remote <==>
      || (|href| >= 7 && Lower(href[..7]) == "http://")
      || (|href| >= 8 && Lower(href[..8]) == "https://")
  {
    LowerSlice(href, 0, if |href| >= 7 then 7 else 0);
    LowerSlice(href, 0, if |href| >= 8 then 8 else 0);
    StartsWith(Lower(href), "http://") || StartsWith(Lower(href), "https://")
  }

  /** The classification ignores letter case. */
  lemma IsRemoteHrefCaseInsensitive(href: string)
    ensures IsRemoteHref(href) == IsRemoteHref(Lower(href))
  {
    LowerIsLowerCase(href);
    var low := Lower(href);
    LowerIsLowerCase(low);
    assert Lower(low) == low;
  }

  /** `url.href.replace(/^\//, "")`. */
  function StripLeadingSlash(href: string): (r: string)
    ensures StartsWith(href, "/") ==> href == "/" + r
    ensures !StartsWith(href, "/") ==> r == href
  {
    if StartsWith(href, "/") then href[1..] else href
  }

  function StripTrailingSlash(s: string): (r: string)
    ensures EndsWith(s, "/") ==> s == r + "/"
    ensures !EndsWith(s, "/") ==> r == s
  {
    if EndsWith(s, "/") then s[..|s| - 1] else s
  }

  /** `replace(/^\/|\/$/g, "")`: one leading and one trailing slash removed. */
  function TrimSlashes(p: string): (r: string)
    ensures |p| - 2 <= |r| <= |p|
    ensures p == (if StartsWith(p, "/") then "/" else "") + r
                 + (if EndsWith(StripLeadingSlash(p), "/") then "/" else "")
  {
    var rest := StripLeadingSlash(p);
    var r := StripTrailingSlash(rest);
    assert rest == r + (if EndsWith(rest, "/") then "/" else "");
    r
  }

  /** A string with no slash at either end. */
  predicate Unslashed(x: string) {
    x == [] || (x[0] != '/' && x[|x| - 1] != '/')
  }

  lemma StripLeadingSlashOf(s: string, lead: bool)
    requires s == [] || s[0] != '/'
    ensures StripLeadingSlash((if lead then "/" else "") + s) == s
  {
    var p := (if lead then "/" else "") + s;
    if lead {
      assert p[1..] == s;
    } else if s != [] {
      assert p[..1] == [s[0]];
    }
  }

  lemma StripTrailingSlashOf(s: string, trail: bool)
    requires s == [] || s[|s| - 1] != '/'
    ensures StripTrailingSlash(s + (if trail then "/" else "")) == s
  {
    if trail {
      var p := s + "/";
      assert EndsWith(p, "/") by {
        assert p[|p| - 1..] == "/";
      }
      assert p[..|p| - 1] == s;
    } else {
      assert s + "" == s;
      if s != [] {
        assert s[|s| - 1..] == [s[|s| - 1]];
      }
    }
  }

  /** Removing the slashes is the inverse of adding at most one at each end. */
  lemma TrimSlashesUnwraps(x: string, lead: bool, trail: bool)
    requires Unslashed(x)
    ensures TrimSlashes((if lead then "/" else "") + x + (if trail then "/" else "")) == x
  {
    var tail := x + (if trail then "/" else "");
    assert (if lead then "/" else "") + x + (if trail then "/" else "") == (if lead then "/" else "") + tail;
    if x == [] {
      assert |tail| <= 1;
    } else {
      assert tail[0] == x[0];
      StripLeadingSlashOf(tail, lead);
      StripTrailingSlashOf(x, trail);
    }
  }

  /** The prefix a key is stored under; `undefined` and `""` both mean none. */
  function KeyPrefix(bucketKeyPrefix: Option<string>): (prefix: string)
    ensures bucketKeyPrefix.None? ==> prefix == ""
    ensures bucketKeyPrefix.Some? ==>
      var p := bucketKeyPrefix.value;
      p == (if StartsWith(p, "/") then "/" else "") + prefix + (if EndsWith(StripLeadingSlash(p), "/") then "/" else "")
  {
    if bucketKeyPrefix.Some? then TrimSlashes(bucketKeyPrefix.value) else ""
  }

  /** The S3 key requested for a local href. */
  function ObjectKey(bucketKeyPrefix: Option<string>, href: string): (key: string)
    ensures KeyPrefix(bucketKeyPrefix) == "" ==> key == StripLeadingSlash(href)
  {
    var prefix := KeyPrefix(bucketKeyPrefix);
    if prefix != "" then prefix + "/" + StripLeadingSlash(href) else StripLeadingSlash(href)
  }

  /** Recovers the href part of a key, given the configured prefix. */
  function RelativeKey(key: string, bucketKeyPrefix: Option<string>): Option<string> {
    var prefix := KeyPrefix(bucketKeyPrefix);
    if prefix == "" then Some(key)
    else if StartsWith(key, prefix + "/") then Some(key[|prefix| + 1..])
    else None
  }

  /** Every key lies under the configured prefix, and the href part comes back out of it. */
  lemma ObjectKeyRoundTrip(bucketKeyPrefix: Option<string>, href: string)
    ensures RelativeKey(ObjectKey(bucketKeyPrefix, href), bucketKeyPrefix) == Some(StripLeadingSlash(href))
  {
    var prefix := KeyPrefix(bucketKeyPrefix);
    if prefix != "" {
      var key := ObjectKey(bucketKeyPrefix, href);
      assert key[..|prefix + "/"|] == prefix + "/";
      assert key[|prefix| + 1..] == StripLeadingSlash(href);
    }
  }

  /** A prefix with no doubled slash at its end keeps no slash at its end once trimmed. */
  lemma TrimSlashesNoTrailingSlash(prefix: string)
    requires TrimSlashes(prefix) != "" && !EndsWith(prefix, "//")
    ensures var t := TrimSlashes(prefix); t[|t| - 1] != '/'
  {
    var rest := StripLeadingSlash(prefix);
    var t := TrimSlashes(prefix);
    if EndsWith(rest, "/") {
      assert t[|t| - 1] == prefix[|prefix| - 2];
      assert prefix[|prefix| - 2..] == [prefix[|prefix| - 2], prefix[|prefix| - 1]];
    } else {
      assert t[|t| - 1] == prefix[|prefix| - 1];
    }
  }

  /** An href that does not start with two slashes does not start with one once stripped. */
  lemma StripLeadingSlashNoSlash(href: string)
    requires !StartsWith(href, "//")
    ensures !StartsWith(StripLeadingSlash(href), "/")
  {
    if StartsWith(href, "/") && |href| >= 2 {
      assert href[..2] == [href[0], href[1]];
    }
  }

  /**
   * With a prefix that has no doubled slash at its end and an href that does not
   * start with two slashes, exactly one slash separates the prefix from the href.
   */
  lemma ObjectKeySingleSeparator(prefix: string, href: string)
    requires TrimSlashes(prefix) != ""
    requires !EndsWith(prefix, "//") && !StartsWith(href, "//")
    ensures var key := ObjectKey(Some(prefix), href);
      var n := |TrimSlashes(prefix)|;
      && |key| > n
      && key[..n] == TrimSlashes(prefix)
      && key[n - 1] != '/' && key[n] == '/'
      && (|key| == n + 1 || key[n + 1] != '/')
  {
    var trimmed := TrimSlashes(prefix);
    var stripped := StripLeadingSlash(href);
    var n := |trimmed|;
    var key := ObjectKey(Some(prefix), href);
    assert key == trimmed + "/" + stripped;
    TrimSlashesNoTrailingSlash(prefix);
    StripLeadingSlashNoSlash(href);
    assert key[n - 1] == trimmed[n - 1];
    if |key| > n + 1 {
      assert key[n + 1] == stripped[0];
    }
  }

  /** Only one trailing slash is trimmed: a prefix ending in two keeps one, and the key doubles it. */
  lemma DoubledTrailingSlashSurvives()
    ensures TrimSlashes("/images//") == "images/"
    ensures ObjectKey(Some("/images//"), "/cat.png") == "images//cat.png"
  {
    assert StripLeadingSlash("/images//") == "images//";
    assert StripTrailingSlash("images//") == "images/";
    assert StripLeadingSlash("/cat.png") == "cat.png";
  }

  /** What `GetObjectCommand` returns: the body stream (when present) and two metadata fields. */
  datatype S3Object = S3Object(body: Option<seq<byte>>, contentType: Option<string>, cacheControl: Option<string>)

  /** Where the download handler takes the source image from. */
  datatype ImageSource = RemoteOrigin(url: string) | ContentStore(bucket: Option<string>, key: string)

  const EmptyBodyError := Error("Empty response body from the S3 request.")

  /** The headers copied from the S3 object: each one only when S3 returned a non-empty value. */
  function S3HeaderUpdates(obj: S3Object): (h: Headers)
    ensures h.Keys <= {"content-type", "cache-control"}
    ensures "content-type" in h <==> obj.contentType.Some? && obj.contentType.value != ""
    ensures "content-type" in h ==> h["content-type"] == obj.contentType.value
    ensures "cache-control" in h <==> obj.cacheControl.Some? && obj.cacheControl.value != ""
    ensures "cache-control" in h ==> h["cache-control"] == obj.cacheControl.value
  {
    var withType: Headers :=
      if obj.contentType.Some? && obj.contentType.value != "" then map["content-type" := obj.contentType.value]
      else map[];
    if obj.cacheControl.Some? && obj.cacheControl.value != "" then withType["cache-control" := obj.cacheControl.value]
    else withType
  }

  /** The response object Next.js passes to the download handler; header names are case-insensitive. */
  class ServerResponse {
    var headers: Headers

    constructor ()
      ensures headers == map[]
    {
      headers := map[];
    }

    method SetHeader(name: string, value: string)
      modifies this`headers
      ensures headers == old(headers)[Lower(name) := value]
    {
      headers := headers[Lower(name) := value];
    }
  }

  lemma HeaderNamesLowered()
    ensures Lower("Content-Type") == "content-type"
    ensures Lower("Cache-Control") == "cache-control"
  {
    assert Lower("Content-Type") == "content-type" by {
      var low := Lower("Content-Type");
      assert forall i :: 0 <= i < 12 ==> low[i] == "content-type"[i];
    }
    assert Lower("Cache-Control") == "cache-control" by {
      var low := Lower("Cache-Control");
      assert forall i :: 0 <= i < 13 ==> low[i] == "cache-control"[i];
    }
  }

  /**
   * `downloadHandler` up to the point where the body is piped: a remote href is fetched
   * over HTTPS, a local one from S3 under the prefixed key, and S3's metadata is copied.
   */
  method DownloadHandler(env: Env, href: string, getObject: (Option<string>, string) -> S3Object, res: ServerResponse)
    returns (outcome: Result<ImageSource, Thrown>)
    modifies res`headers
    ensures IsRemoteHref(href) ==> outcome == Success(RemoteOrigin(href)) && res.headers == old(res.headers)
    ensures !IsRemoteHref(href) ==>
      var key := ObjectKey(env.bucketKeyPrefix, href);
      var obj := getObject(env.bucketName, key);
      && (obj.body.None? ==> outcome == Failure(EmptyBodyError) && res.headers == old(res.headers))
      && (obj.body.Some? ==>
            outcome == Success(ContentStore(env.bucketName, key))
            && res.headers == old(res.headers) + S3HeaderUpdates(obj))
  {
    if IsRemoteHref(href) {
      outcome := Success(RemoteOrigin(href));
      return;
    }
    var key := ObjectKey(env.bucketKeyPrefix, href);
    var obj := getObject(env.bucketName, key);
    if obj.body.None? {
      outcome := Failure(EmptyBodyError);
      return;
    }
    HeaderNamesLowered();
    if obj.contentType.Some? && obj.contentType.value != "" {
      res.SetHeader("Content-Type", obj.contentType.value);
    }
    if obj.cacheControl.Some? && obj.cacheControl.value != "" {
      res.SetHeader("Cache-Control", obj.cacheControl.value);
    }
    outcome := Success(ContentStore(env.bucketName, key));
  }
}
