/**
 * The experimental request handler of the `new-next` package: the warmer short-circuit,
 * the mapping of the variable argument list to a response stream and a `Context`, the
 * binary MIME type list, and the Next.js configuration overlay.
 */
module RequestHandler {
  import opened Wrappers

  type Headers = map<string, string>

  /** The `headers` field of the event: absent, `null`, or an object. */
  datatype EventHeaders = UndefinedHeaders | NullHeaders | HeaderObject(fields: Headers)

  /** The invocation event: `hasTypeField` is `"type" in event`. */
  datatype ApiEvent = ApiEvent(hasTypeField: bool, headers: EventHeaders)

  /** An argument value, as far as the handler looks at it: objects are truthy, the rest are not. */
  datatype JsValue = Undefined | Null | Object(id: nat)

  predicate Truthy(v: JsValue) {
    v.Object?
  }

  /** The response stream (possibly `undefined`) and the `Context` picked from the arguments. */
  datatype ArgumentMapping = ArgumentMapping(responseStream: JsValue, context: JsValue)

  /** The options handed to `serverlessExpress`, and the event and context it is then invoked with. */
  datatype AdapterCall = AdapterCall(binaryMimeTypes: seq<string>, respondWithErrors: bool, event: ApiEvent, context: JsValue)

  /** What an invocation does: answer a warmer, delegate to the HTTP adapter, or throw. */
  datatype Outcome =
    | Warmed(statusCode: int, body: string)
    | Delegated(call: AdapterCall, arguments: ArgumentMapping)
    | Threw(error: string)

  /** What reading `warmer` from an absent or a `null` headers field throws. */
  function WarmerHeaderError(headers: EventHeaders): string {
    if headers.NullHeaders? then "TypeError: Cannot read properties of null (reading 'warmer')"
    else "TypeError: Cannot read properties of undefined (reading 'warmer')"
  }

  /** `event.headers.warmer === "true"`: a strict string comparison. */
  predicate WarmerHeader(h: Headers) {
    "warmer" in h && h["warmer"] == "true"
  }

  /**
   * `"type" in event || event.headers.warmer === "true"`; the second operand is only
   * evaluated without a `type` field, and throws when the event has no headers.
   */
  function IsWarmerEvent(event: ApiEvent): (r: Result<bool, string>)
    ensures event.hasTypeField ==> r == Success(true)
    ensures !event.hasTypeField && !event.headers.HeaderObject? ==> r == Failure(WarmerHeaderError(event.headers))
    ensures !event.hasTypeField && event.headers.HeaderObject? ==>
      r == Success("warmer" in event.headers.fields && event.headers.fields["warmer"] == "true")
  {
    if event.hasTypeField then Success(true)
    else if !event.headers.HeaderObject? then Failure(WarmerHeaderError(event.headers))
    else Success(WarmerHeader(event.headers.fields))
  }

  /** With a `type` field the headers are never inspected: any headers, or none, give the same answer. */
  lemma TypeFieldIgnoresHeaders(h1: EventHeaders, h2: EventHeaders)
    ensures IsWarmerEvent(ApiEvent(true, h1)) == IsWarmerEvent(ApiEvent(true, h2)) == Success(true)
  {
  }

  /** Only the exact string "true" marks a warmer through the header. */
  lemma WarmerHeaderIsStrict(h: Headers, v: string)
    ensures IsWarmerEvent(ApiEvent(false, HeaderObject(h["warmer" := v]))) == Success(v == "true")
  {
  }

  /** `(args?.[0] ? arg : undefined)` and `(args?.[0] ? args[0] : arg)`. */
  function MapArguments(arg: JsValue, args: seq<JsValue>): (m: ArgumentMapping)
    ensures |args| > 0 && Truthy(args[0]) ==> m.responseStream == arg && m.context == args[0]
    ensures !(|args| > 0 && Truthy(args[0])) ==> m.responseStream == Undefined && m.context == arg
  {
    var third := if |args| > 0 then args[0] else Undefined;
    if Truthy(third) then ArgumentMapping(arg, third) else ArgumentMapping(Undefined, arg)
  }

  /** The stream is defined exactly when the context came from the third argument. */
  lemma StreamDefinedIffThirdArgument(arg: JsValue, args: seq<JsValue>)
    requires Truthy(arg)
    ensures MapArguments(arg, args).responseStream != Undefined <==> (|args| > 0 && Truthy(args[0]))
  {
  }

  /** `requestHandler`. */
  function HandleRequest(event: ApiEvent, arg: JsValue, args: seq<JsValue>): (r: Outcome)
    ensures r.Warmed? <==> IsWarmerEvent(event) == Success(true)
    ensures r.Warmed? ==> r.statusCode == 200 && r.body == "OK"
    ensures r.Threw? <==> IsWarmerEvent(event).Failure?
    ensures r.Delegated? ==>
      && r.call.binaryMimeTypes == CommonBinaryMimeTypesAsWritten()
      && r.call.respondWithErrors
      && r.arguments == MapArguments(arg, args)
      && r.call.event == event
      && r.call.context == r.arguments.context
  {
    match IsWarmerEvent(event)
    case Failure(e) => Threw(e)
    case Success(true) => Warmed(200, "OK")
    case Success(false) =>
      var arguments := MapArguments(arg, args);
      Delegated(AdapterCall(CommonBinaryMimeTypesAsWritten()[..], true, event, arguments.context), arguments)
  }

  /** The adapter is handed the list as written, so it treats neither `audio/wav` nor `audio/webm` as binary. */
  lemma DelegatedListMissesWavAndWebm(event: ApiEvent, arg: JsValue, args: seq<JsValue>)
    requires HandleRequest(event, arg, args).Delegated?
    ensures var types := HandleRequest(event, arg, args).call.binaryMimeTypes;
      "audio/wav" !in types && "audio/webm" !in types && "audio/wavaudio/webm" in types
  {
    AsWrittenMissesWavAndWebm();
  }

  // ---------------------------------------------------------------------------
  // Binary MIME types
  // ---------------------------------------------------------------------------

  /** The types `prefix + name`, one per name, in order. */
  function WithPrefix(prefix: string, names: seq<string>): (types: seq<string>)
    ensures |types| == |names|
    ensures forall i :: 0 <= i < |names| ==> types[i] == prefix + names[i]
  {
    seq(|names|, i requires 0 <= i < |names| => prefix + names[i])
  }

  /*
   * The groups of `commonBinaryMimeTypes`, in the order the source lists them, each
   * written as the subtypes under its top-level type.
   */

  const DocumentSubtypes := [
    "octet-stream",
    "epub+zip",
    "msword",
    "pdf",
    "rtf",
    "vnd.amazon.ebook",
    "vnd.ms-excel",
    "vnd.ms-powerpoint",
    "vnd.openxmlformats-officedocument.presentationml.presentation",
    "vnd.openxmlformats-officedocument.spreadsheetml.sheet",
    "vnd.openxmlformats-officedocument.wordprocessingml.document"]

  const FontSubtypes := ["otf", "woff", "woff2"]

  const ImageSubtypes := ["bmp", "gif", "jpeg", "png", "tiff", "vnd.microsoft.icon", "webp"]

  /** The audio subtypes as written: one literal lacks the `", "` that would make it the two subtypes `wav` and `webm`. */
  const AudioSubtypesAsWritten := ["3gpp", "aac", "basic", "mpeg", "ogg", "wavaudio/webm", "x-aiff", "x-midi", "x-wav"]

  /** The audio subtypes with `wav` and `webm` as the two entries they were meant to be. */
  const AudioSubtypes := ["3gpp", "aac", "basic", "mpeg", "ogg", "wav", "webm", "x-aiff", "x-midi", "x-wav"]

  const VideoSubtypes := ["3gpp", "mp2t", "mpeg", "ogg", "quicktime", "webm", "x-msvideo"]

  const ArchiveSubtypes := [
    "java-archive",
    "vnd.apple.installer+xml",
    "x-7z-compressed",
    "x-apple-diskimage",
    "x-bzip",
    "x-bzip2",
    "x-gzip",
    "x-java-archive",
    "x-rar-compressed",
    "x-tar",
    "x-zip",
    "zip"]

  /** The list built from the fixed groups around the given audio subtypes. */
  function MimeTypeList(audioSubtypes: seq<string>): seq<string> {
    WithPrefix("application/", DocumentSubtypes) + WithPrefix("font/", FontSubtypes)
      + WithPrefix("image/", ImageSubtypes) + WithPrefix("audio/", audioSubtypes)
      + WithPrefix("video/", VideoSubtypes) + WithPrefix("application/", ArchiveSubtypes)
  }

  /** `commonBinaryMimeTypes` exactly as the source writes it: the list the handler passes on. */
  function CommonBinaryMimeTypesAsWritten(): (types: seq<string>)
    ensures |types| == 49
    ensures types[21..30] == WithPrefix("audio/", AudioSubtypesAsWritten)
  {
    MimeTypeList(AudioSubtypesAsWritten)
  }

  /** `commonBinaryMimeTypes` as evidently intended, with `audio/wav` and `audio/webm` as two entries. */
  function CommonBinaryMimeTypes(): (types: seq<string>)
    ensures |types| == 50
    ensures types[21..31] == WithPrefix("audio/", AudioSubtypes)
  {
    MimeTypeList(AudioSubtypes)
  }

  /** Every type of a prefixed group starts with the prefix. */
  lemma InPrefixedGroup(prefix: string, names: seq<string>, t: string)
    requires t in WithPrefix(prefix, names)
    ensures |t| >= |prefix| && t[..|prefix|] == prefix
  {
    var i :| 0 <= i < |names| && WithPrefix(prefix, names)[i] == t;
    assert t == prefix + names[i];
  }

  /** An audio type is in the list exactly when its subtype is among the audio subtypes. */
  lemma {:induction false} AudioTypeInList(audioSubtypes: seq<string>, subtype: string)
    ensures "audio/" + subtype in MimeTypeList(audioSubtypes) <==> subtype in audioSubtypes
  {
    var t := "audio/" + subtype;
    var group := WithPrefix("audio/", audioSubtypes);
    var list := MimeTypeList(audioSubtypes);
    assert t[..6] == "audio/" && t[6..] == subtype;
    assert t[1] == 'u' && "application/"[1] == 'p';
    if t in list {
      assert t !in WithPrefix("application/", DocumentSubtypes) by {
        if t in WithPrefix("application/", DocumentSubtypes) {
          InPrefixedGroup("application/", DocumentSubtypes, t);
        }
      }
      assert t !in WithPrefix("font/", FontSubtypes) by {
        if t in WithPrefix("font/", FontSubtypes) {
          InPrefixedGroup("font/", FontSubtypes, t);
        }
      }
      assert t !in WithPrefix("image/", ImageSubtypes) by {
        if t in WithPrefix("image/", ImageSubtypes) {
          InPrefixedGroup("image/", ImageSubtypes, t);
        }
      }
      assert t !in WithPrefix("video/", VideoSubtypes) by {
        if t in WithPrefix("video/", VideoSubtypes) {
          InPrefixedGroup("video/", VideoSubtypes, t);
        }
      }
      assert t !in WithPrefix("application/", ArchiveSubtypes) by {
        if t in WithPrefix("application/", ArchiveSubtypes) {
          InPrefixedGroup("application/", ArchiveSubtypes, t);
        }
      }
      assert t in group;
      var i :| 0 <= i < |group| && group[i] == t;
      assert ("audio/" + audioSubtypes[i])[6..] == audioSubtypes[i];
    }
    if subtype in audioSubtypes {
      var i :| 0 <= i < |audioSubtypes| && audioSubtypes[i] == subtype;
      assert group[i] == t;
    }
  }

  /** As written, neither `audio/wav` nor `audio/webm` is binary: only their concatenation is listed. */
  lemma AsWrittenMissesWavAndWebm()
    ensures "audio/wavaudio/webm" in CommonBinaryMimeTypesAsWritten()
    ensures "audio/wav" !in CommonBinaryMimeTypesAsWritten()
    ensures "audio/webm" !in CommonBinaryMimeTypesAsWritten()
  {
    AudioTypeInList(AudioSubtypesAsWritten, "wav");
    AudioTypeInList(AudioSubtypesAsWritten, "webm");
    AudioTypeInList(AudioSubtypesAsWritten, "wavaudio/webm");
    assert AudioSubtypesAsWritten[5] == "wavaudio/webm";
    assert "audio/" + "wav" == "audio/wav" && "audio/" + "webm" == "audio/webm";
    assert "audio/" + "wavaudio/webm" == "audio/wavaudio/webm";
  }

  /** The corrected list lists both audio types, and the joined entry is gone. */
  lemma CorrectedListSplitsTheJoinedEntry()
    ensures "audio/wav" in CommonBinaryMimeTypes() && "audio/webm" in CommonBinaryMimeTypes()
    ensures "audio/wavaudio/webm" !in CommonBinaryMimeTypes()
    ensures |CommonBinaryMimeTypes()| == |CommonBinaryMimeTypesAsWritten()| + 1
  {
    AudioTypeInList(AudioSubtypes, "wav");
    AudioTypeInList(AudioSubtypes, "webm");
    AudioTypeInList(AudioSubtypes, "wavaudio/webm");
    assert AudioSubtypes[5] == "wav" && AudioSubtypes[6] == "webm";
    assert "audio/" + "wav" == "audio/wav" && "audio/" + "webm" == "audio/webm";
    assert "audio/" + "wavaudio/webm" == "audio/wavaudio/webm";
  }

  // ---------------------------------------------------------------------------
  // Next.js configuration overlay
  // ---------------------------------------------------------------------------

  /** A value of the loaded Next.js configuration. */
  datatype ConfigValue =
    | Bool(b: bool)
    | Num(n: int)
    | Str(s: string)
    | Obj(fields: map<string, ConfigValue>)
    | Null

  type Config = map<string, ConfigValue>

  /** `...config.experimental`: the fields of an object, nothing for an absent or non-object value. */
  function ExperimentalFields(config: Config): map<string, ConfigValue> {
    if "experimental" in config && config["experimental"].Obj? then config["experimental"].fields else map[]
  }

  /** `${process.env.LAMBDA_TASK_ROOT}/cache.cjs`; an unset variable renders as "undefined". */
  function CacheHandlerPath(taskRoot: Option<string>): (path: string)
    ensures taskRoot.Some? ==> path == taskRoot.value + "/cache.cjs"
    ensures taskRoot.None? ==> path == "undefined/cache.cjs"
  {
    (if taskRoot.Some? then taskRoot.value else "undefined") + "/cache.cjs"
  }

  /** The `conf` object `nextHandler` builds from the loaded configuration. */
  function NextConf(config: Config, taskRoot: Option<string>): (conf: Config)
    ensures conf.Keys == config.Keys + {"compress", "experimental"}
    ensures forall k :: k in config && k != "compress" && k != "experimental" ==> conf[k] == config[k]
    ensures conf["compress"] == Bool(false)
    ensures conf["experimental"].Obj?
    ensures conf["experimental"].fields.Keys == ExperimentalFields(config).Keys + {"incrementalCacheHandlerPath"}
    ensures forall k :: k in ExperimentalFields(config) && k != "incrementalCacheHandlerPath" ==>
      conf["experimental"].fields[k] == ExperimentalFields(config)[k]
    ensures conf["experimental"].fields["incrementalCacheHandlerPath"] == Str(CacheHandlerPath(taskRoot))
  {
    var experimental := ExperimentalFields(config)["incrementalCacheHandlerPath" := Str(CacheHandlerPath(taskRoot))];
    config["compress" := Bool(false)]["experimental" := Obj(experimental)]
  }

  /** Overlaying an already overlaid configuration gives it back unchanged. */
  lemma NextConfIdempotent(config: Config, taskRoot: Option<string>)
    ensures NextConf(NextConf(config, taskRoot), taskRoot) == NextConf(config, taskRoot)
  {
    var once := NextConf(config, taskRoot);
    var twice := NextConf(once, taskRoot);
    assert ExperimentalFields(once) == once["experimental"].fields;
    assert twice["experimental"] == once["experimental"];
    assert twice.Keys == once.Keys;
  }

  /** The options `nextHandler` passes to Next.js. */
  datatype NextOptions = NextOptions(conf: Config, customServer: bool, dev: bool, dir: string)

  function NextHandlerOptions(config: Config, taskRoot: Option<string>, dir: string): (options: NextOptions)
    ensures !options.customServer && !options.dev && options.dir == dir
    ensures options.conf == NextConf(config, taskRoot)
  {
    NextOptions(NextConf(config, taskRoot), false, false, dir)
  }
}
