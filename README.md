# Fluxo: stream selection and cast-channel handling, modelled in Dafny

Fluxo lets a user share a video page into an Android app and cast the video to a
receiver. Two pieces of its code make decisions, and this project models both.

**The `/extract` handler of the backend** (`backend/app.py`, `extract_video`). It checks
the request, runs the media extractor on the requested page URL, and picks one direct
stream URL from the extractor's output. That URL is labelled `"live"` or `"recorded"`.
Every failure becomes an HTTP status: 400, 422, 504 or 500.

- `Extractor.ExtractVideo` follows the handler statement by statement. It has a `while`
  loop over the formats that stops at the first `.m3u8` URL and tracks the last mp4
  candidate.
- `Extractor.ExtractVideo` is proved equal to the functional specification
  `Extractor.Extract`. That specification is built from `Select` (the two locals
  `direct_url` and `video_type`), `Scan` (the formats loop) and `Respond` (the reply).
- `ExtractorProperties` proves what the handler promises about `Extract`. The scan is
  compared with positional definitions that do not depend on it: the first HLS format,
  the first JSON-null URL, and the last mp4 candidate.
- Python's `dict.get` is modelled by `Field<T> = Missing | Null | Present`. Both a
  missing key and JSON `null` read as `None`. The difference matters in two places,
  both of which end in 500 for `null`:
  - `parsed_data.get("formats", [])` gives `[]` for a missing key but `None` for
    `null`, and then `for f in None` raises (`Internal(NullFormats)`);
  - `f.get("url", "")` gives `""` for a missing key but `None` for `null`, and then
    `".m3u8" in None` raises (`Internal(NullFormatUrl)`).
- Python truthiness of a string is `Truthy`: present and non-empty.
- The extractor itself is the parameter `run: string -> RunOutcome`. It stands for the
  process call, its time-out and the JSON decoding. "The extractor is never run" is
  stated as "the reply is the same for every `run`".

Some behaviour of the code, as written, is easy to misread:

- When the top-level URL is non-empty but contains neither `.m3u8` nor `.mp4`, and the
  formats list is iterable with no JSON-null and no `.m3u8` URL, `video_type` is never
  assigned. Building the reply then raises, and the answer is 500.
  `ExtractorProperties.UnassignedTypeIff` proves this is exactly the class of inputs
  that gives the unassigned-`video_type` 500. A JSON-null `"formats"` or format URL
  also ends in 500, but the loop raises it (`NullFormatsGives500`,
  `NullFormatUrlGives500`).
- `best_mp4` is the URL of the last format with `ext == "mp4"` and
  `acodec != "none"`, whether or not that URL is empty. If the last such format has an
  empty URL, the answer is 422, even when an earlier qualifying format had a URL
  (`NothingFoundGives422`). A reading in which the last candidate *with a non-empty
  URL* wins does not match the code. The model follows the code.

**The cast channel of the Android activity**
(`android/app/src/main/kotlin/com/fluxo/fluxo/MainActivity.kt`).

- The mailbox: `pendingSharedUrl` is filled by plain-text share intents and emptied
  by `getInitialLink`.
- The method-call dispatch: argument defaults, argument errors, and which receiver
  command a call issues.
- The media descriptor that `loadMedia` builds.
- `CastBridge.MainActivity` is a class with the two fields the activity updates:
  `pendingSharedUrl`, and whether `castContext` is held. It is held lazily, through
  `getSharedInstance`.
- `CastBridge.MainActivity.OnMethodCall` is proved against the pure function
  `CastBridge.Handle`. `CastBridgeProperties` proves the promised behaviour about
  `Handle`.
- The cast SDK is the parameter `CastEnv`, which gives three things:
  - whether `getSharedInstance` returns or throws;
  - the current session (none, connected or not, with or without a media client);
  - whether the volume setter throws.
- The SDK calls are results of type `CastCommand`, holding the arguments they would be
  given.
- An exception that escapes the handler before it replies is `CallResult.Threw`. This
  happens only when `getSharedInstance` throws inside `getRemoteMediaClient` or
  `loadMedia`.

The code validates neither the seek position nor the volume level; both are passed
on as given, and the model does the same.

## Model

| member | source | states |
|---|---|---|
| `Extractor.ExtractVideo` | backend/app.py:26-108 | The handler, step by step, with the formats loop, computes exactly `Extract`; no reply is ever labelled `"unknown"` |
| `Extractor.Extract` | backend/app.py:26-108 | The whole handler as a function: 400 "Missing 'url' field" exactly for a null body or one without `"url"`, 504 exactly for a time-out of the run on that URL, the extractor-failed 400 exactly for a non-zero return code, and success only after a clean run with decodable output |
| `Extractor.Select` | backend/app.py:57-88 | The locals `direct_url` and `video_type`: live only with a URL containing `.m3u8`, recorded only with a non-empty URL, unknown only without one; unassigned only next to a non-empty top-level URL; the only exceptions are a JSON-null `"formats"` (exactly when the top-level URL does not decide) and a JSON-null format URL |
| `Extractor.Scan` | backend/app.py:71-81 | The formats loop: a URL it stops at contains `.m3u8` and belongs to one of the formats; the candidate it ends with is the initial one or the URL of an mp4 format with audio; it raises only when some format URL is JSON null |
| `Extractor.Respond` | backend/app.py:52-101 | Every 200 reply has a non-empty URL labelled live or recorded; title, thumbnail and duration are exactly as decoded; the only errors after decoding are 422 and 500 |
| `Extractor.Status` | backend/app.py:29-108 | A reply is 200 exactly when it succeeds; 400 exactly for a missing url field or a failed extractor run; every status is one of 200, 400, 422, 500, 504 |
| `Extractor.ErrorText` | backend/app.py:29-108 | The fixed error texts of the 400, 422 and 504 replies; a 500 reply carries the text of the exception raised |
| `Text.ContainsIffOccurs` | backend/app.py:61-73 | Python's `sub in s` on strings holds exactly when `sub` occurs at some position of `s` |
| `ExtractorProperties.ScanFindsFirstHls` | backend/app.py:71-77 | The scan stops at the first format whose URL contains `.m3u8` and yields that URL, whatever the mp4 candidate was |
| `ExtractorProperties.ScanStopsAtNull` | backend/app.py:71-73 | A JSON-null format URL reached before any HLS URL makes the scan raise |
| `ExtractorProperties.ScanKeepsBest` | backend/app.py:79-81 | Over plain formats with no mp4 candidate, `best_mp4` is unchanged |
| `ExtractorProperties.ScanKeepsLastMp4` | backend/app.py:79-81 | Over plain formats, the last mp4 candidate's URL wins |
| `ExtractorProperties.ScanOutcomes` | backend/app.py:71-81 | The scan finds HLS iff some format is the first HLS one, raises iff a null URL comes first, and runs to the end iff every URL is plain |
| `ExtractorProperties.MissingUrlRejected` | backend/app.py:27-29 | A null body or one without `"url"` is answered 400 and the extractor is not run: the reply is the same for every extractor |
| `ExtractorProperties.RunsOnRequestedUrl` | backend/app.py:31-43 | The extractor's result is only consulted for the requested `"url"` value |
| `ExtractorProperties.NonZeroExitRejected` | backend/app.py:45-47 | A non-zero return code is answered 400 with the extractor's stderr as details |
| `ExtractorProperties.TimeoutGives504` | backend/app.py:103-105 | An extractor time-out is answered 504 |
| `ExtractorProperties.DecodedOutputDecides` | backend/app.py:45-49 | After a successful run with decodable output, the reply depends on the decoded data alone |
| `ExtractorProperties.TopLevelHlsWins` | backend/app.py:57-62 | A top-level URL with `.m3u8` is returned as live, even if it also contains `.mp4`; the formats do not matter |
| `ExtractorProperties.TopLevelMp4Wins` | backend/app.py:63-64 | A top-level URL with `.mp4` and no `.m3u8` is returned as recorded; the formats do not matter |
| `ExtractorProperties.FirstHlsFormatWins` | backend/app.py:66-77 | Otherwise the first HLS format URL is returned as live, overriding any earlier mp4 candidate and any top-level URL |
| `ExtractorProperties.LastMp4FormatWins` | backend/app.py:79-85 | With no usable top-level URL and no HLS format, the last mp4 candidate is returned as recorded, if its URL is non-empty |
| `ExtractorProperties.NothingFoundGives422` | backend/app.py:83-91 | With no usable top-level URL, no HLS format, and either no mp4 candidate or a last mp4 candidate whose URL is empty, the reply is 422 |
| `ExtractorProperties.NullFormatsGives500` | backend/app.py:66-71 | With no deciding top-level URL, a JSON-null `"formats"` makes the loop raise, and the reply is 500 |
| `ExtractorProperties.NullFormatUrlGives500` | backend/app.py:72-73 | A JSON-null format URL reached by the scan gives 500 |
| `ExtractorProperties.UnassignedTypeIff` | backend/app.py:61-97 | `video_type` stays unassigned, and the reply is 500, exactly for a non-empty top-level URL without `.m3u8` or `.mp4`, iterable formats, and no HLS or null format URL |
| `ExtractorProperties.SuccessHasSource` | backend/app.py:61-88 | Every live reply comes from an HLS top-level URL or the first HLS format; every recorded reply from an mp4 top-level URL or the last mp4 candidate |
| `CastBridge.Route` | android/app/src/main/kotlin/com/fluxo/fluxo/MainActivity.kt:110-179 | The `when` over the method name: a named branch is selected only by its own name |
| `CastBridge.Handle` | android/app/src/main/kotlin/com/fluxo/fluxo/MainActivity.kt:109-181 | The method-call handler as a function: `notImplemented` exactly for unknown names; a command is issued only with the context held; the mailbox is kept or emptied, never filled; an escaping exception issues nothing and changes nothing |
| `CastBridge.ClientCommand` | android/app/src/main/kotlin/com/fluxo/fluxo/MainActivity.kt:139-150 | `getRemoteMediaClient()?.x()` then `success(true)`: it throws exactly when obtaining the context fails, otherwise answers `true` with the context held, and sends `x` exactly when there is a media client |
| `CastBridge.SharedUrl` | android/app/src/main/kotlin/com/fluxo/fluxo/MainActivity.kt:59-62 | An intent yields a URL exactly when it is `ACTION_SEND` of `text/plain` with a text extra, and the URL is that text |
| `CastBridge.Describe` | android/app/src/main/kotlin/com/fluxo/fluxo/MainActivity.kt:202-216 | The descriptor keeps explicit metadata, defaults title, subtitle and content type, is live exactly when `isLive`, and has an image exactly for a non-empty image URL |
| `CastBridge.LoadCommand` | android/app/src/main/kotlin/com/fluxo/fluxo/MainActivity.kt:196-224 | A load is issued exactly with a connected session that has a media client, and it carries the built descriptor with autoplay |
| `CastBridge.MainActivity.OnCreate` | android/app/src/main/kotlin/com/fluxo/fluxo/MainActivity.kt:43-52 | The launching intent fills the mailbox as `SharedUrl` says; the cast context is held exactly when obtaining it returned |
| `CastBridge.MainActivity.HandleIntent` | android/app/src/main/kotlin/com/fluxo/fluxo/MainActivity.kt:59-69 | A qualifying share overwrites the mailbox; any other intent leaves it unchanged |
| `CastBridge.MainActivity.TakeInitialLink` | android/app/src/main/kotlin/com/fluxo/fluxo/MainActivity.kt:111-114 | Returns the pending URL and empties the mailbox |
| `CastBridge.MainActivity.AcquireCastContext` | android/app/src/main/kotlin/com/fluxo/fluxo/MainActivity.kt:184-187 | The cast context is obtained only if it is not yet held; it is held afterwards unless obtaining it threw |
| `CastBridge.MainActivity.LoadMedia` | android/app/src/main/kotlin/com/fluxo/fluxo/MainActivity.kt:191-225 | It throws only when the context must be obtained and that fails; otherwise it issues exactly `LoadCommand` |
| `CastBridge.MainActivity.SendToClient` | android/app/src/main/kotlin/com/fluxo/fluxo/MainActivity.kt:139-150 | It throws only when obtaining the context fails; the command is sent exactly when there is a media client |
| `CastBridge.MainActivity.OnMethodCall` | android/app/src/main/kotlin/com/fluxo/fluxo/MainActivity.kt:109-181 | The reply, the issued command and the new mailbox and context state are exactly those of `Handle` |
| `CastBridgeProperties.RouteInverse` | android/app/src/main/kotlin/com/fluxo/fluxo/MainActivity.kt:110-179 | Method names and branches of the `when` correspond one to one |
| `CastBridgeProperties.RouteKnownIff` | android/app/src/main/kotlin/com/fluxo/fluxo/MainActivity.kt:110-179 | A name selects a named branch exactly when it is one of the nine method names |
| `CastBridgeProperties.UnknownMethodNotImplemented` | android/app/src/main/kotlin/com/fluxo/fluxo/MainActivity.kt:179 | Any other name is answered `notImplemented`, issues nothing and changes nothing |
| `CastBridgeProperties.OnlyInitialLinkTakesPending` | android/app/src/main/kotlin/com/fluxo/fluxo/MainActivity.kt:111-114 | Only `getInitialLink` changes the mailbox, emptying it; no method call fills it |
| `CastBridgeProperties.InitialLinkConsumedOnce` | android/app/src/main/kotlin/com/fluxo/fluxo/MainActivity.kt:111-114 | `getInitialLink` answers the pending URL, and an immediate second call answers null |
| `CastBridgeProperties.CastContextKept` | android/app/src/main/kotlin/com/fluxo/fluxo/MainActivity.kt:115-194 | Once held, the cast context is never dropped by a method call |
| `CastBridgeProperties.InitCastIff` | android/app/src/main/kotlin/com/fluxo/fluxo/MainActivity.kt:115-122 | `initCast` answers `true` and holds the context exactly when `getSharedInstance` returns; otherwise INIT_ERROR with the exception's message and the state unchanged |
| `CastBridgeProperties.ThrewOnlyFromAcquisition` | android/app/src/main/kotlin/com/fluxo/fluxo/MainActivity.kt:124-194 | An exception escapes the handler exactly for `loadMedia` with a URL, `play`, `pause`, `stop` and `seek` when the context is not held and obtaining it throws; nothing is issued and the state is unchanged |
| `CastBridgeProperties.LoadMediaNeedsUrl` | android/app/src/main/kotlin/com/fluxo/fluxo/MainActivity.kt:132-137 | `loadMedia` without a URL is answered INVALID_ARGS, issues nothing and changes nothing |
| `CastBridgeProperties.LoadMediaSucceedsWithoutSession` | android/app/src/main/kotlin/com/fluxo/fluxo/MainActivity.kt:132-200 | `loadMedia` with a URL is answered `true` once the context is held, even when no connected session exists and nothing is loaded |
| `CastBridgeProperties.LoadMediaDescriptor` | android/app/src/main/kotlin/com/fluxo/fluxo/MainActivity.kt:124-224 | With a connected session and client, the load carries the URL and autoplay; it is live exactly when `isLive` is true (absent means false), and absent metadata takes its default |
| `CastBridgeProperties.DescribeDefaults` | android/app/src/main/kotlin/com/fluxo/fluxo/MainActivity.kt:203-214 | A bare URL is described as a buffered `video/mp4` stream titled "Fluxo Video", subtitled "Enviado desde Fluxo", with no image |
| `CastBridgeProperties.EmptyImageIgnored` | android/app/src/main/kotlin/com/fluxo/fluxo/MainActivity.kt:205-207 | An empty image URL is treated like an absent one |
| `CastBridgeProperties.DescribeRoundTrip` | android/app/src/main/kotlin/com/fluxo/fluxo/MainActivity.kt:202-216 | Describing a descriptor's own fields gives back that descriptor: explicit values are never replaced by defaults |
| `CastBridgeProperties.ControlsAlwaysSucceed` | android/app/src/main/kotlin/com/fluxo/fluxo/MainActivity.kt:139-150 | `play`, `pause` and `stop` are answered `true` with or without a media client; the command is sent exactly when there is one |
| `CastBridgeProperties.SeekDefaultsAndSession` | android/app/src/main/kotlin/com/fluxo/fluxo/MainActivity.kt:151-163 | `seek` goes to the given position, or 0; without a media client it is answered NO_SESSION, otherwise `true` |
| `CastBridgeProperties.VolumeDefault` | android/app/src/main/kotlin/com/fluxo/fluxo/MainActivity.kt:164-172 | `setVolume` sets the given level, or 0.5, exactly when a session is reachable; VOLUME_ERROR exactly when the setter throws; the state is unchanged |
| `CastBridgeProperties.ShareThenFetch` | android/app/src/main/kotlin/com/fluxo/fluxo/MainActivity.kt:59-114 | A share followed by `getInitialLink` hands out the shared text (or the earlier pending URL), and a second call hands out null |

## Left out

- Running the extractor (the `yt-dlp` command, its 45-second time-out) and `json.loads`: these are an external process and a library parser. Their outcomes are the input `RunOutcome`.
- Flask routing, `jsonify`, `health_check`, logging and `app.run`: these are web-framework I/O.
- `is_live` in the handler: it is computed and updated but never sent in the reply, so it has no observable effect.
- JSON values of the wrong kind: a body, a decoded output or a format that is not an object, and a URL that is not a string. The model types these values as objects and strings, so it does not say what the handler does with them. Depending on the value this can be 400 (a list or string body without `"url"` in it), 200 or 422 (a falsy top-level URL such as `0` or `[]` takes the formats path; a list URL is tested by membership), or 500 (an operation that raises).
- The text of exceptions raised by Python itself, such as iterating over `None` or reading an unassigned local: it depends on the interpreter version. `ErrorText` gives `None` for these.
- The Flutter `MethodChannel` transport, `invokeMethod("onLinkReceived")` and `flutterEngineInstance`: these are platform I/O. `onNewIntent` only calls `handleIntent`, which is modelled.
- Adding and removing the session listener in `onResume`/`onPause`, and starting or stopping the foreground service with its SDK-version branch: these are platform lifecycle.
- The effects of the cast SDK calls (`load`, `play`, `pause`, `stop`, `seek`, the volume setter): these are foreign calls. Only the commands and the arguments they would get are modelled.
- The volume level: it is a Kotlin `Double`, modelled as a `real` that is passed on unchanged. No arithmetic is done on it.
- What the channel replies when an exception escapes the handler (`CallResult.Threw`): this is decided by the Flutter framework, not by this file.
- Arguments of the wrong type, such as a non-string `url` or a non-integer `position`: in Kotlin these fail a cast. The model types every argument.
- The metadata type `MEDIA_TYPE_MOVIE`: it is the same constant for every load, so `MediaDescriptor` does not carry it.
- `showRouteSelector`: it is a stub that answers `true`, and it is modelled as such.
