/** The `/extract` handler of the Fluxo backend: it validates the request, runs the
    media extractor on the requested page URL, picks one direct stream URL out of the
    extractor's decoded output, labels it live or recorded, and maps every failure to an
    HTTP status (400, 422, 504 or 500).  The extractor process, its time-out and the JSON
    decoder are not modelled: their outcomes are inputs (`RunOutcome`, `Decoded`). */
module Extractor {
  import opened Wrappers
  import opened Text

  const Hls: string := ".m3u8"
  const Mp4: string := ".mp4"

  // ---------------------------------------------------------------------------
  // Inputs

  /** One key of a decoded JSON object, as Python's `dict.get` can see it: the key is
      missing, present with JSON `null`, or present with a value. */
  datatype Field<+T> = Missing | Null | Present(value: T)

  /** `d.get(key)`: `None` both for a missing key and for JSON `null`. */
  function Get<T>(f: Field<T>): Option<T> {
    match f
    case Present(v) => Some(v)
    case _ => None
  }

  /** One entry of the extractor's `formats` list. */
  datatype Format = Format(url: Field<string>, ext: Field<string>, acodec: Field<string>)

  /** The decoded extractor output, as far as the handler reads it. */
  datatype ParsedInfo = ParsedInfo(
    title: Field<string>,
    thumbnail: Field<string>,
    duration: Field<real>,
    url: Field<string>,
    formats: Field<seq<Format>>)

  /** What `json.loads` and the first `.get` do with the extractor's standard output:
      an object, or an exception (JSON that does not parse, or is not an object)
      with its message. */
  datatype Decoded = Parsed(info: ParsedInfo) | Unparsable(message: string)

  /** What running the extractor on the target URL produced: a time-out, another
      exception raised by the process call, or a finished process. */
  datatype RunOutcome =
    | TimedOut
    | RunRaised(message: string)
    | Completed(returnCode: int, stdout: Decoded, stderr: string)

  /** The request as the handler receives it: `get_json()` raised (with its message),
      or it returned a JSON object or `null`.  Keys map to the values the handler
      passes on as the target URL. */
  datatype Request = Unreadable(message: string) | Body(data: Option<map<string, string>>)

  // ---------------------------------------------------------------------------
  // Outputs

  /** The label written to `"type"`. */
  datatype VideoType = Live | Recorded | Unknown

  /** The JSON object of a 200 reply. */
  datatype Response = Response(
    title: Option<string>,
    thumbnail: Option<string>,
    directUrl: string,
    videoType: VideoType,
    duration: Option<real>)

  /** Why the handler raised inside its `try` block (all end in status 500). */
  datatype Cause =
    | Raised(message: string)   // an exception with its own message text
    | NullFormats               // `for f in None`: `"formats"` was JSON null
    | NullFormatUrl             // `".m3u8" in None`: a format's `"url"` was JSON null
    | VideoTypeUnbound          // `video_type` read before it was ever assigned

  /** Every error reply of the handler. */
  datatype Failure =
    | MissingUrl                    // 400 "Missing 'url' field"
    | ExtractorFailed(stderr: string) // 400 "Could not extract video info", details = stderr
    | NoUrlFound                    // 422 "No processing URL found"
    | Timeout                       // 504 "Extraction timed out"
    | Internal(cause: Cause)        // 500 with the exception's text

  /** The HTTP status of a reply. */
  function Status(r: Result<Response, Failure>): (code: int)
    ensures code == 200 <==> r.Ok?
    ensures code in {200, 400, 422, 500, 504}
    ensures code == 400 <==> r.Err? && (r.error.MissingUrl? || r.error.ExtractorFailed?)
  {
    match r
    case Ok(_) => 200
    case Err(MissingUrl) => 400
    case Err(ExtractorFailed(_)) => 400
    case Err(NoUrlFound) => 422
    case Err(Timeout) => 504
    case Err(Internal(_)) => 500
  }

  /** The `"error"` text of an error reply; `None` where it is the text of Python's own
      exception, which the model does not fix. */
  function ErrorText(f: Failure): (text: Option<string>)
    ensures text.None? <==> f.Internal? && !f.cause.Raised?
    ensures f.Internal? && f.cause.Raised? ==> text == Some(f.cause.message)
  {
    match f
    case MissingUrl => Some("Missing 'url' field")
    case ExtractorFailed(_) => Some("Could not extract video info")
    case NoUrlFound => Some("No processing URL found")
    case Timeout => Some("Extraction timed out")
    case Internal(Raised(m)) => Some(m)
    case Internal(_) => None
  }

  // ---------------------------------------------------------------------------
  // Stream selection, as a specification

  /** Python truthiness of an optional string: present and non-empty. */
  predicate Truthy(s: Option<string>) {
    s.Some? && s.value != ""
  }

  predicate IsHls(u: string) { Contains(u, Hls) }
  predicate IsMp4(u: string) { Contains(u, Mp4) }

  /** `f.get("url", "")`: the empty string for a missing key, `None` for JSON null. */
  function FormatUrl(f: Format): Option<string> {
    match f.url
    case Missing => Some("")
    case Null => None
    case Present(u) => Some(u)
  }

  /** `f.get("ext") == "mp4" and f.get("acodec") != "none"`. */
  predicate QualifiesMp4(f: Format) {
    Get(f.ext) == Some("mp4") && Get(f.acodec) != Some("none")
  }

  /** `parsed_data.get("formats", [])`, for a value that is not JSON null. */
  function FormatsOf(info: ParsedInfo): seq<Format> {
    match info.formats
    case Present(fs) => fs
    case _ => []
  }

  /** How the scan over the formats ends. */
  datatype ScanOutcome =
    | FoundLive(url: string)        // stopped at a format whose URL contains ".m3u8"
    | Exhausted(best: Option<string>) // ran to the end; `best_mp4` at that point
    | NullUrl                       // raised on a format whose URL is JSON null

  /** The left-to-right scan over `fs`, starting with `best_mp4 == best`.  A URL it
      finds contains ".m3u8" and is the URL of one of the formats; the candidate it ends
      with is the one it started with or the URL of a format that is mp4 with audio. */
  function Scan(fs: seq<Format>, best: Option<string>): (r: ScanOutcome)
    ensures r.FoundLive? ==> IsHls(r.url)
    ensures r.FoundLive? ==> exists j :: 0 <= j < |fs| && FormatUrl(fs[j]) == Some(r.url)
    ensures r.Exhausted? ==>
              r.best == best || exists j :: 0 <= j < |fs| && QualifiesMp4(fs[j]) && FormatUrl(fs[j]) == r.best
    ensures r.NullUrl? ==> exists j :: 0 <= j < |fs| && FormatUrl(fs[j]).None?
    decreases |fs|
  {
    if fs == [] then Exhausted(best)
    else
      match FormatUrl(fs[0])
      case None => NullUrl
      case Some(u) =>
        if IsHls(u) then FoundLive(u)
        else Scan(fs[1..], if QualifiesMp4(fs[0]) then Some(u) else best)
  }

  /** The locals `direct_url` and `video_type` after the selection logic; a `None`
      type means `video_type` was never assigned. */
  datatype Selection = Selection(directUrl: Option<string>, videoType: Option<VideoType>)

  /** The selection logic of the handler, from the decoded output to the two locals,
      or the cause of the exception it raises.  A live label always comes with a URL
      containing ".m3u8", a recorded label with a non-empty URL, and the "unknown" label
      with no usable URL; `video_type` is left unassigned only next to a non-empty
      top-level URL; the only exceptions come from JSON-null formats or format URLs. */
  function Select(info: ParsedInfo): (r: Result<Selection, Cause>)
    ensures r.Ok? && r.value.videoType == Some(Live) ==>
              r.value.directUrl.Some? && IsHls(r.value.directUrl.value)
    ensures r.Ok? && r.value.videoType == Some(Recorded) ==> Truthy(r.value.directUrl)
    ensures r.Ok? && r.value.videoType == Some(Unknown) ==> !Truthy(r.value.directUrl)
    ensures r.Ok? && r.value.videoType.None? ==>
              r.value.directUrl == Get(info.url) && Truthy(r.value.directUrl)
    ensures r.Err? ==> r.error == NullFormats || r.error == NullFormatUrl
    ensures (r == Err(NullFormats)) ==
              (info.formats.Null?
               && !(Truthy(Get(info.url)) && (IsHls(Get(info.url).value) || IsMp4(Get(info.url).value))))
  {
    var direct := Get(info.url);
    if Truthy(direct) && IsHls(direct.value) then Ok(Selection(direct, Some(Live)))
    else if Truthy(direct) && IsMp4(direct.value) then Ok(Selection(direct, Some(Recorded)))
    else if info.formats.Null? then Err(NullFormats)
    else
      match Scan(FormatsOf(info), None)
      case NullUrl => Err(NullFormatUrl)
      case FoundLive(u) => Ok(Selection(Some(u), Some(Live)))
      case Exhausted(best) =>
        if !Truthy(direct) && Truthy(best) then Ok(Selection(best, Some(Recorded)))
        else if !Truthy(direct) then Ok(Selection(direct, Some(Unknown)))
        else Ok(Selection(direct, None))
  }

  /** The reply built from decoded extractor output. Every success carries a non-empty
      URL labelled live or recorded, and the metadata exactly as decoded. */
  function Respond(info: ParsedInfo): (r: Result<Response, Failure>)
    ensures r.Ok? ==> r.value.videoType == Live || r.value.videoType == Recorded
    ensures r.Ok? ==> r.value.directUrl != ""
    ensures r.Ok? ==> r.value.title == Get(info.title) && r.value.thumbnail == Get(info.thumbnail)
                      && r.value.duration == Get(info.duration)
    ensures r.Err? ==> r.error == NoUrlFound || r.error.Internal?
  {
    match Select(info)
    case Err(c) => Err(Internal(c))
    case Ok(sel) =>
      if !Truthy(sel.directUrl) then Err(NoUrlFound)
      else if sel.videoType.None? then Err(Internal(VideoTypeUnbound))
      else
        assert sel.videoType.value != Unknown;
        Ok(Response(Get(info.title), Get(info.thumbnail), sel.directUrl.value,
                    sel.videoType.value, Get(info.duration)))
  }

  /** The whole handler: request validation, the extractor run, the return-code check,
      decoding, selection and the exception-to-status mapping. */
  function Extract(req: Request, run: string -> RunOutcome): (r: Result<Response, Failure>)
    ensures r == Err(MissingUrl) <==> req.Body? && (req.data.None? || "url" !in req.data.value)
    ensures r == Err(Timeout) <==>
              req.Body? && req.data.Some? && "url" in req.data.value && run(req.data.value["url"]).TimedOut?
    ensures r.Err? && r.error.ExtractorFailed? <==>
              req.Body? && req.data.Some? && "url" in req.data.value
              && run(req.data.value["url"]).Completed? && run(req.data.value["url"]).returnCode != 0
    ensures r.Ok? ==>
              req.Body? && req.data.Some? && "url" in req.data.value
              && run(req.data.value["url"]).Completed? && run(req.data.value["url"]).returnCode == 0
              && run(req.data.value["url"]).stdout.Parsed?
  {
    match req
    case Unreadable(m) => Err(Internal(Raised(m)))
    case Body(data) =>
      if data.None? || "url" !in data.value then Err(MissingUrl)
      else
        match run(data.value["url"])
        case TimedOut => Err(Timeout)
        case RunRaised(m) => Err(Internal(Raised(m)))
        case Completed(code, out, stderr) =>
          if code != 0 then Err(ExtractorFailed(stderr))
          else
            match out
            case Unparsable(m) => Err(Internal(Raised(m)))
            case Parsed(info) => Respond(info)
  }

  // ---------------------------------------------------------------------------
  // The handler, step by step

  /** `extract_video`, statement by statement: the locals `direct_url`, `video_type`
      and `best_mp4` are updated as the handler updates them, and the formats are
      scanned by a loop that stops at the first HLS URL. */
  method ExtractVideo(req: Request, run: string -> RunOutcome) returns (r: Result<Response, Failure>)
    ensures r == Extract(req, run)
    ensures r.Ok? ==> r.value.videoType != Unknown
  {
    if req.Unreadable? {
      return Err(Internal(Raised(req.message)));
    }
    var data := req.data;
    if data.None? || "url" !in data.value {
      return Err(MissingUrl);
    }
    var outcome := run(data.value["url"]);
    if outcome.TimedOut? {
      return Err(Timeout);
    }
    if outcome.RunRaised? {
      return Err(Internal(Raised(outcome.message)));
    }
    if outcome.returnCode != 0 {
      return Err(ExtractorFailed(outcome.stderr));
    }
    if outcome.stdout.Unparsable? {
      return Err(Internal(Raised(outcome.stdout.message)));
    }
    var info := outcome.stdout.info;

    var directUrl := Get(info.url);
    var videoType: Option<VideoType> := None;
    if Truthy(directUrl) && IsHls(directUrl.value) {
      videoType := Some(Live);
    } else if Truthy(directUrl) && IsMp4(directUrl.value) {
      videoType := Some(Recorded);
    } else {
      if info.formats.Null? {
        return Err(Internal(NullFormats));
      }
      var formats := FormatsOf(info);
      var bestMp4: Option<string> := None;
      var i := 0;
      while i < |formats|
        invariant 0 <= i <= |formats|
        invariant Scan(formats[i..], bestMp4) == Scan(formats, None)
        invariant directUrl == Get(info.url) && videoType.None?
      {
        assert formats[i..][1..] == formats[i + 1..];
        var fUrl := FormatUrl(formats[i]);
        if fUrl.None? {
          return Err(Internal(NullFormatUrl));
        }
        if IsHls(fUrl.value) {
          ContainsNonEmpty(fUrl.value, Hls);
          directUrl := fUrl;
          videoType := Some(Live);
          break;
        }
        if QualifiesMp4(formats[i]) {
          bestMp4 := fUrl;
        }
        i := i + 1;
      }
      if !Truthy(directUrl) && Truthy(bestMp4) {
        directUrl := bestMp4;
        videoType := Some(Recorded);
      } else if !Truthy(directUrl) {
        videoType := Some(Unknown);
      }
    }

    if !Truthy(directUrl) {
      return Err(NoUrlFound);
    }
    if videoType.None? {
      return Err(Internal(VideoTypeUnbound));
    }
    r := Ok(Response(Get(info.title), Get(info.thumbnail), directUrl.value,
                     videoType.value, Get(info.duration)));
  }
}
