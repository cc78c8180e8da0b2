# OpenNext Lambda adapters: a Dafny model

This project models the request and response shaping that OpenNext wraps around three
AWS Lambda entry points of a Next.js deployment:

- **The image optimisation adapter** (`ImageOptimization`, `image_optimization.dfy`). It covers:
  - header-key lowercasing, where the last entry wins;
  - the `BUCKET_NAME` guard;
  - turning a validation `errorMessage` into a thrown error;
  - the fixed 200 and 500 results;
  - the step sequences of `normalHandler` and `streamHandler`, where every failure becomes the 500 result;
  - the parts of `downloadHandler` that work without I/O: remote versus local classification, the S3 key-prefix join, and copying S3 metadata onto the response with `setHeader`.

  The Next.js routines `validateParams` and `imageOptimizer` are parameters, and so are base64 encoding and the S3 fetch. The handlers are methods that record the calls they make into Next.js. `ServerResponse` is a class whose `SetHeader` updates its header map in place.
- **The streaming `lambdaHandler` override** (`StreamingHandler`, `streaming_handler.dfy`). It covers:
  - rejecting warmer events;
  - the in-place `x-forwarded-host` → `host` override on the `InternalEvent` object;
  - the pre-send hook that runs the three header fixes in order;
  - the branch between a short-circuit result and processing followed by revalidation.

  `convertFrom`, `processInternalEvent`, `processRequest` and the three fixes are function-valued collaborators. Every call into them is appended to a `CallLog`, and every frame written to the response stream is kept in a `ResponseStream`, so ordering and "nothing else happens" become postconditions on those two objects. Both are classes.
- **The experimental `new-next` request handler** (`RequestHandler`, `request_handler.dfy`). It covers:
  - the warmer predicate;
  - how the variable argument list is mapped to a response stream and a `Context`;
  - the `commonBinaryMimeTypes` list;
  - the `conf` overlay `nextHandler` hands to Next.js.

  All of these are pure functions.

`text.dfy` holds the shared string helpers: lowercasing, prefix and suffix tests, and decimal rendering and parsing. `wrappers.dfy` holds `Option` and `Result`.

Three behaviours of the code worth noting:

- The key-prefix rule strips at most one leading and one trailing slash (`replace(/^\/|\/$/g, "")`). A prefix ending in `//` therefore still yields a doubled slash in the key, as `DoubledTrailingSlashSurvives` shows. `ObjectKeySingleSeparator` states a sufficient condition for exactly one slash to separate prefix and href: the prefix does not end in `//` and the href does not start with `//`.
- The streaming handler does not answer a warmer with 200/"OK": it throws "Warmer function are not supported with streaming".
- `StreamingServerResponse` is defined in `../http/responseStreaming` and is not modelled. The class of that name here is a minimal stand-in. It stages headers, runs the hook once before the head is committed, and writes a head frame and then body frames.

## Model

| member | source | states |
|---|---|---|
| Text.Lower | packages/open-next/src/adapters/image-optimization-adapter.ts:110 | lowercasing keeps the length and maps each character through ASCII case folding |
| Text.LowerIsLowerCase | packages/open-next/src/adapters/image-optimization-adapter.ts:110 | a lowercased key has no upper-case letter, and lowercasing leaves a string unchanged exactly when it is already lower case |
| Text.LowerSlice | packages/open-next/src/adapters/image-optimization-adapter.ts:208 | lowercasing a prefix of the href gives the same as taking that prefix of the lowercased href |
| Text.DecimalString | packages/open-next/src/adapters/image-optimization-adapter.ts:163 | `${maxAge}` is a non-empty run of digits with no leading zero unless the number is 0 |
| Text.DigitValue | packages/open-next/src/adapters/image-optimization-adapter.ts:163 | a digit character denotes a value below ten that renders back as the same character |
| Text.ParseDecimal | packages/open-next/src/adapters/image-optimization-adapter.ts:163 | a string is read as a number exactly when it is a non-empty run of digits |
| Text.DecimalRoundTrip | packages/open-next/src/adapters/image-optimization-adapter.ts:163 | reading the rendered max-age back gives the max-age |
| ImageOptimization.NormalizeHeaderKeys | packages/open-next/src/adapters/image-optimization-adapter.ts:107-113 | the normalised headers have no more keys than there were entries, and the last entry's value is stored under its lowercased key |
| ImageOptimization.NormalizeHeaderKeysSpec | packages/open-next/src/adapters/image-optimization-adapter.ts:107-113 | after normalisation every key is lower case, every lowercased input key is present, and each value is the value of the last input entry with that lowercased key |
| ImageOptimization.NormalizeLastWins | packages/open-next/src/adapters/image-optimization-adapter.ts:109-110 | the value of the last entry for a lowercased key is the one the normalised headers hold |
| ImageOptimization.NormalizeCollision | packages/open-next/src/adapters/image-optimization-adapter.ts:109-110 | two keys differing only by case collapse into one entry holding the later value |
| ImageOptimization.EnsureBucketExists | packages/open-next/src/adapters/image-optimization-adapter.ts:115-119 | the guard throws exactly when `BUCKET_NAME` is unset or empty, with the message "Bucket name must be defined!" |
| ImageOptimization.QueryArgument | packages/open-next/src/adapters/image-optimization-adapter.ts:88-91 | a `null` or absent query string reaches validation as `undefined`; an object is passed through unchanged |
| ImageOptimization.ValidateImageParams | packages/open-next/src/adapters/image-optimization-adapter.ts:121-138 | validation succeeds exactly when Next.js returns parameters, which are returned unchanged; an `errorMessage` becomes an `Error` with exactly that message |
| ImageOptimization.ImmutableCacheControl | packages/open-next/src/adapters/image-optimization-adapter.ts:163 | the value starts with `public,max-age=`, ends with `,immutable`, and holds between them a non-empty run of digits with no leading zero unless the max-age is 0 |
| ImageOptimization.CacheControlRoundTrip | packages/open-next/src/adapters/image-optimization-adapter.ts:163 | the `public,max-age=<n>,immutable` value carries exactly the max-age it was built from |
| ImageOptimization.BuildSuccessResponse | packages/open-next/src/adapters/image-optimization-adapter.ts:156-167 | status 200, base64 flag set, exactly the headers Vary: Accept, Cache-Control `public,max-age=<maxAge>,immutable` (which reads back as the result's max-age) and the result's Content-Type; the body is the encoded buffer |
| ImageOptimization.FailureBody | packages/open-next/src/adapters/image-optimization-adapter.ts:179 | the body is the error's message, or its name when the message is empty |
| ImageOptimization.BuildFailureResponse | packages/open-next/src/adapters/image-optimization-adapter.ts:169-181 | status 500 without base64 flag, exactly the headers Vary: Accept, Cache-Control `public,max-age=60,immutable` (max-age 60) and Content-Type application/json, and the failure body |
| ImageOptimization.ImagePipeline | packages/open-next/src/adapters/image-optimization-adapter.ts:85-93 | missing headers fail with a TypeError; a missing bucket fails with the bucket error; a failed validation fails with an `Error` carrying exactly its `errorMessage`; otherwise the outcome is the optimiser's, success or rejection |
| ImageOptimization.RunImagePipeline | packages/open-next/src/adapters/image-optimization-adapter.ts:61-70 | the step sequence produces the pipeline's outcome; with no headers or no bucket no Next.js routine is called; otherwise validation is called first with the normalised headers, and optimisation is called second exactly when validation passed |
| ImageOptimization.NormalHandler | packages/open-next/src/adapters/image-optimization-adapter.ts:78-98 | the handler always returns a result, 200 exactly when the pipeline succeeds (the success result) and otherwise the 500 result for the thrown error; a missing bucket calls nothing in Next.js |
| ImageOptimization.StreamHandler | packages/open-next/src/adapters/image-optimization-adapter.ts:52-76 | exactly one frame is written: the optimised image on success, a 500 error frame otherwise |
| ImageOptimization.IsRemoteHref | packages/open-next/src/adapters/image-optimization-adapter.ts:207-208 | an href is remote exactly when its first 7 characters lowercase to `http://` or its first 8 to `https://` |
| ImageOptimization.IsRemoteHrefCaseInsensitive | packages/open-next/src/adapters/image-optimization-adapter.ts:208 | the classification of an href and of its lowercased form agree |
| ImageOptimization.StripLeadingSlash | packages/open-next/src/adapters/image-optimization-adapter.ts:220-221 | one leading slash is removed when present, and the string is otherwise unchanged |
| ImageOptimization.StripTrailingSlash | packages/open-next/src/adapters/image-optimization-adapter.ts:215 | one trailing slash is removed when present, and the string is otherwise unchanged |
| ImageOptimization.TrimSlashes | packages/open-next/src/adapters/image-optimization-adapter.ts:215 | trimming removes one leading slash when present and then one trailing slash when present, and nothing else: the input is the result with exactly those slashes put back |
| ImageOptimization.StripLeadingSlashOf | packages/open-next/src/adapters/image-optimization-adapter.ts:220 | removing the leading slash undoes adding one to a string that does not start with a slash |
| ImageOptimization.StripTrailingSlashOf | packages/open-next/src/adapters/image-optimization-adapter.ts:215 | removing the trailing slash undoes adding one to a string that does not end with a slash |
| ImageOptimization.TrimSlashesUnwraps | packages/open-next/src/adapters/image-optimization-adapter.ts:215 | for a prefix with no slash at either end, trimming gives it back whether or not one slash was added at each end |
| ImageOptimization.KeyPrefix | packages/open-next/src/adapters/image-optimization-adapter.ts:215 | an unset `BUCKET_KEY_PREFIX` gives no prefix; a set one gives the prefix with one leading and then one trailing slash removed when present, and nothing else |
| ImageOptimization.ObjectKey | packages/open-next/src/adapters/image-optimization-adapter.ts:219-221 | with an empty or absent trimmed prefix the key is the href without its leading slash |
| ImageOptimization.ObjectKeyRoundTrip | packages/open-next/src/adapters/image-optimization-adapter.ts:215-221 | every key lies under `prefix + "/"` and the slash-stripped href comes back out of it |
| ImageOptimization.TrimSlashesNoTrailingSlash | packages/open-next/src/adapters/image-optimization-adapter.ts:215 | a prefix not ending in `//` keeps no trailing slash once trimmed |
| ImageOptimization.StripLeadingSlashNoSlash | packages/open-next/src/adapters/image-optimization-adapter.ts:220 | an href not starting with `//` starts with no slash once stripped |
| ImageOptimization.ObjectKeySingleSeparator | packages/open-next/src/adapters/image-optimization-adapter.ts:215-221 | with such a prefix and href, the key is the trimmed prefix followed by exactly one slash and then the href's first non-slash character |
| ImageOptimization.DoubledTrailingSlashSurvives | packages/open-next/src/adapters/image-optimization-adapter.ts:215-221 | the prefix `/images//` trims to `images/`, so the key for `/cat.png` is `images//cat.png` |
| ImageOptimization.S3HeaderUpdates | packages/open-next/src/adapters/image-optimization-adapter.ts:232-239 | Content-Type and Cache-Control are set exactly when S3 returned a non-empty value, and to that value; nothing else is set |
| ImageOptimization.ServerResponse.SetHeader | packages/open-next/src/adapters/image-optimization-adapter.ts:235-238 | the header is stored under its case-insensitive name and no other header changes |
| ImageOptimization.HeaderNamesLowered | packages/open-next/src/adapters/image-optimization-adapter.ts:235-238 | the names `Content-Type` and `Cache-Control` are stored as `content-type` and `cache-control` |
| ImageOptimization.DownloadHandler | packages/open-next/src/adapters/image-optimization-adapter.ts:206-240 | a remote href is fetched from its origin and the response headers are untouched; a local one is fetched from the bucket under the prefixed key; an empty body throws before any header is set; otherwise exactly the S3 metadata updates are applied |
| StreamingHandler.ForwardedHostOverride | packages/open-next/src/adapters/plugins/streaming.replacement.ts:41-44 | a truthy `x-forwarded-host` becomes `host`; otherwise the headers are unchanged; no other entry changes either way |
| StreamingHandler.ForwardedHostOverrideIdempotent | packages/open-next/src/adapters/plugins/streaming.replacement.ts:42-44 | applying the override twice is the same as once |
| StreamingHandler.InternalEvent.ApplyForwardedHost | packages/open-next/src/adapters/plugins/streaming.replacement.ts:42-44 | the request's headers are rewritten in place by the override, and nothing else of the request changes |
| StreamingHandler.HostOf | packages/open-next/src/adapters/plugins/streaming.replacement.ts:88 | `headers.host` is defined exactly when the header is present, with its value |
| StreamingHandler.StreamingServerResponse.RunHook | packages/open-next/src/adapters/plugins/streaming.replacement.ts:55-59 | the hook rewrites the staged headers by the HTML cache fix with the request's `rawPath`, then the SWR fix, then the OpenNext marker, and logs those three calls in that order |
| StreamingHandler.StreamingServerResponse.SendNextResponse | packages/open-next/src/adapters/plugins/streaming.replacement.ts:71-75 | on the first send, status and merged headers are staged, the hook runs, and the head then the body are written; after that, only body is written |
| StreamingHandler.CreateServerResponse | packages/open-next/src/adapters/plugins/streaming.replacement.ts:46-60 | every response targets the same stream and the same hook, whatever method and headers it is given |
| StreamingHandler.ProcessRequestWith | packages/open-next/src/adapters/plugins/streaming.replacement.ts:84-85 | the processor's response is committed through the hook: one processing call, then the hook's three calls, then the head and the body |
| StreamingHandler.RespondTo | packages/open-next/src/adapters/plugins/streaming.replacement.ts:62-93 | after preprocessing, the calls made and the frames written are exactly those of the branch `processInternalEvent` chose |
| StreamingHandler.LambdaHandler | packages/open-next/src/adapters/plugins/streaming.replacement.ts:24-94 | a warmer event fails with "Warmer function are not supported with streaming" and makes no call and writes nothing; any other event makes exactly the handler's calls and writes exactly its frames |
| StreamingHandler.HookRunsInOrder | packages/open-next/src/adapters/plugins/streaming.replacement.ts:55-59 | in every invocation the three fixes run back to back, in order, with the converted request's `rawPath`, exactly once: right after routing on a short circuit, right after processing otherwise |
| StreamingHandler.ShortCircuitSkipsRevalidation | packages/open-next/src/adapters/plugins/streaming.replacement.ts:66-75 | a short-circuit result is sent with its status, body and hooked headers, and neither processing nor revalidation happens |
| StreamingHandler.RevalidationFollowsProcessing | packages/open-next/src/adapters/plugins/streaming.replacement.ts:76-92 | otherwise revalidation is the seventh and last call, after processing. It receives the overridden host, the original `rawPath` and the headers as the hook left them, which are the headers committed to the stream |
| RequestHandler.IsWarmerEvent | packages/new-next/src/index.ts:143-149 | an event with `type` is a warmer without looking at headers; otherwise an absent or `null` headers field throws the matching TypeError, and the header must be exactly "true" |
| RequestHandler.TypeFieldIgnoresHeaders | packages/new-next/src/index.ts:144 | with a `type` field, any headers or none give the same warmer answer |
| RequestHandler.WarmerHeaderIsStrict | packages/new-next/src/index.ts:144 | a `warmer` header value counts exactly when it is the string "true" |
| RequestHandler.MapArguments | packages/new-next/src/index.ts:151-156 | a truthy third argument makes the second the stream and the third the context; otherwise the stream is undefined and the second is the context |
| RequestHandler.StreamDefinedIffThirdArgument | packages/new-next/src/index.ts:151-156 | given a context argument, the stream is defined exactly when a truthy third argument was passed |
| RequestHandler.HandleRequest | packages/new-next/src/index.ts:138-167 | a warmer gets exactly 200/"OK" and no adapter; an absent or `null` headers field throws; otherwise the adapter is built with the binary MIME list exactly as written and error responses, and called with the event and the mapped context |
| RequestHandler.DelegatedListMissesWavAndWebm | packages/new-next/src/index.ts:162 | the list handed to the adapter contains the joined string `audio/wavaudio/webm` and neither `audio/wav` nor `audio/webm` |
| RequestHandler.WithPrefix | packages/new-next/src/index.ts:8-64 | each group of the list is its subtypes under one top-level type, in order |
| RequestHandler.InPrefixedGroup | packages/new-next/src/index.ts:8-64 | every type of a group starts with the group's top-level type |
| RequestHandler.AudioTypeInList | packages/new-next/src/index.ts:33-42 | an `audio/` type is in the list exactly when its subtype is one of the audio subtypes |
| RequestHandler.CommonBinaryMimeTypesAsWritten | packages/new-next/src/index.ts:8-64 | `commonBinaryMimeTypes` as written has 49 entries, with the nine audio entries, the joined one among them, at positions 21 to 29 |
| RequestHandler.CommonBinaryMimeTypes | packages/new-next/src/index.ts:8-64 | the corrected list has 50 entries, with ten audio entries at positions 21 to 30 |
| RequestHandler.AsWrittenMissesWavAndWebm | packages/new-next/src/index.ts:39 | the list as written contains `audio/wavaudio/webm` and neither `audio/wav` nor `audio/webm` |
| RequestHandler.CorrectedListSplitsTheJoinedEntry | packages/new-next/src/index.ts:39 | the corrected list contains `audio/wav` and `audio/webm`, not the joined string, and is one entry longer |
| RequestHandler.CacheHandlerPath | packages/new-next/src/index.ts:84 | the cache handler path is `LAMBDA_TASK_ROOT` followed by `/cache.cjs`, and `undefined/cache.cjs` when the variable is unset |
| RequestHandler.NextConf | packages/new-next/src/index.ts:71-86 | every loaded key is kept with its value except that `compress` is false. `experimental` keeps its keys and values and gains `incrementalCacheHandlerPath` |
| RequestHandler.NextConfIdempotent | packages/new-next/src/index.ts:71-86 | overlaying an already overlaid configuration changes nothing |
| RequestHandler.NextHandlerOptions | packages/new-next/src/index.ts:69-91 | Next.js is started with the overlaid conf, no custom server, not in dev mode and in the given directory |

## Left out

- Text.Lower: folds ASCII letters only. JavaScript's `toLowerCase` also folds other Unicode letters. Header names and URL schemes are ASCII, so the properties proved are unaffected for them.
- ImageOptimization.FailureBody: when the error's name and message are both empty, the source responds with the error object itself. The model gives the empty string. Thrown values other than `Error`-like objects are not modelled.
- ImageOptimization.DownloadHandler: does not model the piping of the body into the response, nor the `close` and `error` handlers that set status 200 or 400 and end the response. These are stream I/O.
- ImageOptimization.StreamHandler: `streamSuccess` and `streamError` are not part of this model. A written frame stands for each of them.
- `https.get`, `S3Client.send` with `GetObjectCommand`, and base64 encoding are parameters. They are not modelled.
- The internals of `imageOptimizer` and `ImageOptimizerCache.validateParams` belong to Next.js, including remote-pattern matching. They are parameters.
- Handler selection through `awslambda.streamifyResponse` and `process.env.STREAMIFY` is platform plumbing and is not modelled.
- `serverlessExpress` and the Next.js request handler are foreign libraries. The model stops at the options and arguments they receive.
- StreamingHandler.LambdaHandler: the short-circuit branch passes an identifier `headers` that streaming.replacement.ts does not define (lines 67-68). The model takes it as the `requestHeaders` parameter and does not model the log line.
- StreamingHandler.LambdaHandler: revalidation is passed `internalEvent.headers.host` as the value the request held after the override. Collaborators are assumed not to mutate the request object.
- StreamingHandler.StreamingServerResponse.SendNextResponse: `StreamingServerResponse` is not part of this model. This class is a minimal stand-in that commits the head once, through the hook.
- `convertFrom` (`../event-mapper`), `processInternalEvent` (`./routing/default.js`), `processRequest` (`serverHandler.ts`), the three header fixes and `revalidateIfRequired` (`./routing/util`) are not modelled. They are uninterpreted functions and logged calls.
- RequestHandler.NextConf: spreading a string-valued `experimental` would copy its characters as keys. The model treats any non-object `experimental` as empty.
- StreamingHandler.RespondTo: in the code, `processInternalEvent` builds the response object `res` itself through `createServerResponse` and returns it. The model has it return the method and request headers, and `RespondTo` builds the response from them with `CreateServerResponse`.
- StreamingHandler.RevalidationFollowsProcessing: the logged `RevalidateIfRequired` call omits `revalidateIfRequired`'s fourth argument, `req`.
- StreamingHandler.LambdaHandler: `convertFrom`, `processInternalEvent` and `processRequest` are total functions. A rejected promise from any of them is not modelled, so the case where a failed `processRequest` skips revalidation is not captured.
- ImageOptimization.DownloadHandler: `getObject` is a total function. A failure of `s3Client.send`, which the catch at lines 241-243 logs and rethrows, is not an outcome of the model.
- Text.DecimalString: `maxAge` is a JavaScript number, modelled as a natural number. The template literal renders non-integers and values of 1e21 or more differently, in fractional or exponent form, so the rendering modelled holds for integers below 1e21 only.
- Header values are strings. Multi-value headers are not modelled.
- Logging (`debug`, `error`, `awsLogger`), `loadConfig`, `setNodeEnv` and the module-level environment reads are not modelled. The environment is the `Env` parameter.

## Findings

| source | as written | input that shows it | evidently intended | confidence | as-written member | corrected member |
|---|---|---|---|---|---|---|
| packages/new-next/src/index.ts:39 | the single literal `"audio/wavaudio/webm"`, where the `", "` that would make it the two literals `"audio/wav"` and `"audio/webm"` is missing | a response with Content-Type `audio/wav` or `audio/webm`, which the list does not mark as binary | two entries, `audio/wav` and `audio/webm` | high (not executed) | RequestHandler.AsWrittenMissesWavAndWebm | RequestHandler.CorrectedListSplitsTheJoinedEntry |

`HandleRequest` passes the list exactly as written, `CommonBinaryMimeTypesAsWritten`, to the adapter, as the code does.
`CommonBinaryMimeTypes` is the corrected list, with `audio/wav` and `audio/webm` as two entries.
