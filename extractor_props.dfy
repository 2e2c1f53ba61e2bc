/** What the `/extract` handler promises, proved about the specification in `Extractor`. */
module ExtractorProperties {
  import opened Wrappers
  import opened Text
  import opened Extractor

  // ---------------------------------------------------------------------------
  // Positional descriptions of the formats list, independent of the scan

  /** Format `j` has a URL that is not JSON null and does not contain ".m3u8". */
  ghost predicate PlainAt(fs: seq<Format>, j: int) {
    0 <= j < |fs| && FormatUrl(fs[j]).Some? && !IsHls(FormatUrl(fs[j]).value)
  }

  /** No format URL is JSON null and none contains ".m3u8". */
  ghost predicate AllPlain(fs: seq<Format>) {
    forall j :: 0 <= j < |fs| ==> FormatUrl(fs[j]).Some? && !IsHls(FormatUrl(fs[j]).value)
  }

  /** Format `k` is the first HLS format, and every earlier one is plain. */
  ghost predicate FirstHlsAt(fs: seq<Format>, k: int) {
    0 <= k < |fs| && FormatUrl(fs[k]).Some? && IsHls(FormatUrl(fs[k]).value)
    && forall j :: 0 <= j < k ==> PlainAt(fs, j)
  }

  /** Format `k` has a JSON-null URL, and every earlier one is plain. */
  ghost predicate FirstNullAt(fs: seq<Format>, k: int) {
    0 <= k < |fs| && FormatUrl(fs[k]).None? && forall j :: 0 <= j < k ==> PlainAt(fs, j)
  }

  /** Format `k` qualifies as mp4 with audio, and no later one does. */
  ghost predicate LastMp4At(fs: seq<Format>, k: int) {
    0 <= k < |fs| && QualifiesMp4(fs[k]) && forall j :: k < j < |fs| ==> !QualifiesMp4(fs[j])
  }

  ghost predicate NoMp4(fs: seq<Format>) {
    forall j :: 0 <= j < |fs| ==> !QualifiesMp4(fs[j])
  }

  // ---------------------------------------------------------------------------
  // The scan

  /** The scan stops at the first HLS format and returns its URL, whatever came before. */
  lemma {:induction false} ScanFindsFirstHls(fs: seq<Format>, best: Option<string>, k: int)
    requires FirstHlsAt(fs, k)
    ensures Scan(fs, best) == FoundLive(FormatUrl(fs[k]).value)
    decreases k
  {
    if k > 0 {
      assert PlainAt(fs, 0);
      assert FirstHlsAt(fs[1..], k - 1) by {
        forall j | 0 <= j < k - 1 ensures PlainAt(fs[1..], j) {
          assert PlainAt(fs, j + 1);
        }
      }
      ScanFindsFirstHls(fs[1..], if QualifiesMp4(fs[0]) then FormatUrl(fs[0]) else best, k - 1);
    }
  }

  /** The scan raises at the first JSON-null URL unless an HLS format comes before it. */
  lemma {:induction false} ScanStopsAtNull(fs: seq<Format>, best: Option<string>, k: int)
    requires FirstNullAt(fs, k)
    ensures Scan(fs, best) == NullUrl
    decreases k
  {
    if k > 0 {
      assert PlainAt(fs, 0);
      assert FirstNullAt(fs[1..], k - 1) by {
        forall j | 0 <= j < k - 1 ensures PlainAt(fs[1..], j) {
          assert PlainAt(fs, j + 1);
        }
      }
      ScanStopsAtNull(fs[1..], if QualifiesMp4(fs[0]) then FormatUrl(fs[0]) else best, k - 1);
    }
  }

  /** On a list of plain formats with no mp4 candidate, `best_mp4` never changes. */
  lemma {:induction false} ScanKeepsBest(fs: seq<Format>, best: Option<string>)
    requires AllPlain(fs) && NoMp4(fs)
    ensures Scan(fs, best) == Exhausted(best)
    decreases |fs|
  {
    if fs != [] {
      assert PlainAt(fs, 0) && !QualifiesMp4(fs[0]);
      forall j | 0 <= j < |fs| - 1 ensures PlainAt(fs[1..], j) && !QualifiesMp4(fs[1..][j]) {
        assert PlainAt(fs, j + 1) && !QualifiesMp4(fs[j + 1]);
      }
      ScanKeepsBest(fs[1..], best);
    }
  }

  /** On a list of plain formats the last mp4 candidate wins, whatever came before it. */
  lemma {:induction false} ScanKeepsLastMp4(fs: seq<Format>, best: Option<string>, k: int)
    requires AllPlain(fs) && LastMp4At(fs, k)
    ensures Scan(fs, best) == Exhausted(FormatUrl(fs[k]))
    decreases k
  {
    assert PlainAt(fs, 0);
    forall j | 0 <= j < |fs| - 1 ensures PlainAt(fs[1..], j) {
      assert PlainAt(fs, j + 1);
    }
    if k == 0 {
      forall j | 0 <= j < |fs| - 1 ensures !QualifiesMp4(fs[1..][j]) {
        assert !QualifiesMp4(fs[j + 1]);
      }
      ScanKeepsBest(fs[1..], FormatUrl(fs[0]));
    } else {
      assert LastMp4At(fs[1..], k - 1) by {
        forall j | k - 1 < j < |fs| - 1 ensures !QualifiesMp4(fs[1..][j]) {
          assert !QualifiesMp4(fs[j + 1]);
        }
      }
      ScanKeepsLastMp4(fs[1..], if QualifiesMp4(fs[0]) then FormatUrl(fs[0]) else best, k - 1);
    }
  }

  /** If some format qualifies as mp4, one of them is the last. */
  lemma {:induction false} LastMp4Exists(fs: seq<Format>, j: int)
    requires 0 <= j < |fs| && QualifiesMp4(fs[j])
    ensures exists k :: LastMp4At(fs, k)
    decreases |fs| - j
  {
    if !LastMp4At(fs, j) {
      var j' :| j < j' < |fs| && QualifiesMp4(fs[j']);
      LastMp4Exists(fs, j');
    }
  }

  /** The scan ends in exactly one of three ways, each fixed by the positions of the
      formats: at the first HLS format, at the first JSON-null URL, or at the end of a
      list of plain formats. */
  lemma {:induction false} ScanOutcomes(fs: seq<Format>, best: Option<string>)
    ensures Scan(fs, best).FoundLive? <==> exists k :: FirstHlsAt(fs, k)
    ensures Scan(fs, best).NullUrl? <==> exists k :: FirstNullAt(fs, k)
    ensures Scan(fs, best).Exhausted? <==> AllPlain(fs)
    decreases |fs|
  {
    if fs != [] {
      var next := if QualifiesMp4(fs[0]) then FormatUrl(fs[0]) else best;
      ScanOutcomes(fs[1..], next);
      if FormatUrl(fs[0]).None? {
        assert FirstNullAt(fs, 0);
        assert !PlainAt(fs, 0);
      } else if IsHls(FormatUrl(fs[0]).value) {
        assert FirstHlsAt(fs, 0);
        assert !PlainAt(fs, 0);
      } else {
        assert PlainAt(fs, 0);
        // Positions in `fs` beyond the first are positions in `fs[1..]`, shifted by one.
        forall j | 0 <= j < |fs| - 1 ensures PlainAt(fs[1..], j) <==> PlainAt(fs, j + 1) {
          assert fs[1..][j] == fs[j + 1];
        }
        if exists k :: FirstHlsAt(fs[1..], k) {
          var k :| FirstHlsAt(fs[1..], k);
          forall j | 0 <= j < k + 1 ensures PlainAt(fs, j) {
            if j > 0 { assert PlainAt(fs[1..], j - 1); }
          }
          assert FirstHlsAt(fs, k + 1);
        }
        if exists k :: FirstHlsAt(fs, k) {
          var k :| FirstHlsAt(fs, k);
          assert FirstHlsAt(fs[1..], k - 1);
        }
        if exists k :: FirstNullAt(fs[1..], k) {
          var k :| FirstNullAt(fs[1..], k);
          forall j | 0 <= j < k + 1 ensures PlainAt(fs, j) {
            if j > 0 { assert PlainAt(fs[1..], j - 1); }
          }
          assert FirstNullAt(fs, k + 1);
        }
        if exists k :: FirstNullAt(fs, k) {
          var k :| FirstNullAt(fs, k);
          assert FirstNullAt(fs[1..], k - 1);
        }
        if AllPlain(fs[1..]) {
          forall j | 0 <= j < |fs| ensures PlainAt(fs, j) {
            if j > 0 { assert PlainAt(fs[1..], j - 1); }
          }
        }
        if AllPlain(fs) {
          forall j | 0 <= j < |fs| - 1 ensures PlainAt(fs[1..], j) {
            assert PlainAt(fs, j + 1);
          }
        }
      }
    }
  }

  // ---------------------------------------------------------------------------
  // The handler

  /** A body that is missing or has no `"url"` key is answered 400, and the extractor
      is never run: the reply is the same whatever the extractor would have done. */
  lemma MissingUrlRejected(req: Request, run: string -> RunOutcome, other: string -> RunOutcome)
    requires req.Body? && (req.data.None? || "url" !in req.data.value)
    ensures Extract(req, run) == Err(MissingUrl) && Status(Extract(req, run)) == 400
    ensures Extract(req, run) == Extract(req, other)
  {
  }

  /** The extractor is run on exactly the requested `"url"` value. */
  lemma RunsOnRequestedUrl(req: Request, run: string -> RunOutcome, other: string -> RunOutcome)
    requires req.Body? && req.data.Some? && "url" in req.data.value
    requires run(req.data.value["url"]) == other(req.data.value["url"])
    ensures Extract(req, run) == Extract(req, other)
  {
  }

  /** A non-zero return code is answered 400, with the extractor's error output as details. */
  lemma NonZeroExitRejected(req: Request, run: string -> RunOutcome)
    requires req.Body? && req.data.Some? && "url" in req.data.value
    requires run(req.data.value["url"]).Completed? && run(req.data.value["url"]).returnCode != 0
    ensures Extract(req, run) == Err(ExtractorFailed(run(req.data.value["url"]).stderr))
    ensures Status(Extract(req, run)) == 400
  {
  }

  /** A time-out of the extractor is answered 504. */
  lemma TimeoutGives504(req: Request, run: string -> RunOutcome)
    requires req.Body? && req.data.Some? && "url" in req.data.value
    requires run(req.data.value["url"]).TimedOut?
    ensures Status(Extract(req, run)) == 504
  {
  }

  /** A successful run with decodable output is answered by the selection logic alone. */
  lemma DecodedOutputDecides(req: Request, run: string -> RunOutcome)
    requires req.Body? && req.data.Some? && "url" in req.data.value
    requires run(req.data.value["url"]).Completed? && run(req.data.value["url"]).returnCode == 0
    requires run(req.data.value["url"]).stdout.Parsed?
    ensures Extract(req, run) == Respond(run(req.data.value["url"]).stdout.info)
  {
  }

  /** A top-level URL containing ".m3u8" is returned as live, even when it also
      contains ".mp4"; the formats are not looked at. */
  lemma TopLevelHlsWins(info: ParsedInfo, other: Field<seq<Format>>)
    requires Truthy(Get(info.url)) && IsHls(Get(info.url).value)
    ensures Respond(info) == Ok(Response(Get(info.title), Get(info.thumbnail),
                                         Get(info.url).value, Live, Get(info.duration)))
    ensures Respond(info.(formats := other)) == Respond(info)
  {
  }

  /** A top-level URL containing ".mp4" but not ".m3u8" is returned as recorded; the
      formats are not looked at. */
  lemma TopLevelMp4Wins(info: ParsedInfo, other: Field<seq<Format>>)
    requires Truthy(Get(info.url)) && !IsHls(Get(info.url).value) && IsMp4(Get(info.url).value)
    ensures Respond(info) == Ok(Response(Get(info.title), Get(info.thumbnail),
                                         Get(info.url).value, Recorded, Get(info.duration)))
    ensures Respond(info.(formats := other)) == Respond(info)
  {
  }

  /** The top-level URL decides the reply on its own. */
  ghost predicate TopLevelDecides(info: ParsedInfo) {
    Truthy(Get(info.url)) && (IsHls(Get(info.url).value) || IsMp4(Get(info.url).value))
  }

  /** Otherwise, the first format whose URL contains ".m3u8" is returned as live; it
      overrides any earlier mp4 candidate and any top-level URL. */
  lemma FirstHlsFormatWins(info: ParsedInfo, k: int)
    requires !TopLevelDecides(info) && !info.formats.Null?
    requires FirstHlsAt(FormatsOf(info), k)
    ensures Respond(info) == Ok(Response(Get(info.title), Get(info.thumbnail),
                                         FormatUrl(FormatsOf(info)[k]).value, Live,
                                         Get(info.duration)))
  {
    var fs := FormatsOf(info);
    ScanFindsFirstHls(fs, None, k);
    ContainsNonEmpty(FormatUrl(fs[k]).value, Hls);
  }

  /** With no usable top-level URL and no HLS format, the last format that is mp4 with
      audio is returned as recorded, provided its URL is non-empty. */
  lemma LastMp4FormatWins(info: ParsedInfo, k: int)
    requires !Truthy(Get(info.url)) && !info.formats.Null?
    requires AllPlain(FormatsOf(info)) && LastMp4At(FormatsOf(info), k)
    requires FormatUrl(FormatsOf(info)[k]).value != ""
    ensures Respond(info) == Ok(Response(Get(info.title), Get(info.thumbnail),
                                         FormatUrl(FormatsOf(info)[k]).value, Recorded,
                                         Get(info.duration)))
  {
    ScanKeepsLastMp4(FormatsOf(info), None, k);
  }

  /** With no usable top-level URL, no HLS format, and no mp4 candidate whose URL is
      non-empty in the last place, the reply is 422. */
  lemma NothingFoundGives422(info: ParsedInfo)
    requires !Truthy(Get(info.url)) && !info.formats.Null? && AllPlain(FormatsOf(info))
    requires forall k :: LastMp4At(FormatsOf(info), k) ==> FormatUrl(FormatsOf(info)[k]) == Some("")
    ensures Respond(info) == Err(NoUrlFound)
    ensures Status(Respond(info)) == 422
  {
    var fs := FormatsOf(info);
    if exists k :: LastMp4At(fs, k) {
      var k :| LastMp4At(fs, k);
      ScanKeepsLastMp4(fs, None, k);
    } else {
      forall j | 0 <= j < |fs| ensures !QualifiesMp4(fs[j]) {
        if QualifiesMp4(fs[j]) { LastMp4Exists(fs, j); }
      }
      ScanKeepsBest(fs, None);
    }
  }

  /** A JSON-null `"formats"` is iterated when the top-level URL does not decide, and
      that raises: the reply is 500. */
  lemma NullFormatsGives500(info: ParsedInfo)
    requires !TopLevelDecides(info) && info.formats.Null?
    ensures Respond(info) == Err(Internal(NullFormats)) && Status(Respond(info)) == 500
  {
  }

  /** A JSON-null format URL reached by the scan is answered 500. */
  lemma NullFormatUrlGives500(info: ParsedInfo, k: int)
    requires !TopLevelDecides(info) && !info.formats.Null?
    requires FirstNullAt(FormatsOf(info), k)
    ensures Respond(info) == Err(Internal(NullFormatUrl)) && Status(Respond(info)) == 500
  {
    ScanStopsAtNull(FormatsOf(info), None, k);
  }

  /** `video_type` is left unassigned, and the reply is 500, for exactly one class of
      inputs: a non-empty top-level URL with neither ".m3u8" nor ".mp4" in it, a
      formats list that can be iterated, and no HLS or JSON-null URL among the formats. */
  lemma UnassignedTypeIff(info: ParsedInfo)
    ensures Respond(info) == Err(Internal(VideoTypeUnbound)) <==>
              Truthy(Get(info.url)) && !IsHls(Get(info.url).value) && !IsMp4(Get(info.url).value)
              && !info.formats.Null? && AllPlain(FormatsOf(info))
  {
    ScanOutcomes(FormatsOf(info), None);
  }

  /** `u` is the URL of the first HLS format. */
  ghost predicate FirstHlsUrl(fs: seq<Format>, u: string) {
    exists k :: FirstHlsAt(fs, k) && FormatUrl(fs[k]) == Some(u)
  }

  /** `u` is the URL of the last format that is mp4 with audio. */
  ghost predicate LastMp4Url(fs: seq<Format>, u: string) {
    exists k :: LastMp4At(fs, k) && FormatUrl(fs[k]) == Some(u)
  }

  /** Every reply labelled live comes either from an HLS top-level URL or from the
      first HLS format, and every reply labelled recorded either from an mp4 top-level
      URL or from the last mp4 candidate of a list of plain formats. */
  lemma SuccessHasSource(info: ParsedInfo)
    requires Respond(info).Ok?
    ensures Respond(info).value.videoType == Live ==>
              (Truthy(Get(info.url)) && IsHls(Get(info.url).value)
               && Respond(info).value.directUrl == Get(info.url).value)
              || (!TopLevelDecides(info) && FirstHlsUrl(FormatsOf(info), Respond(info).value.directUrl))
    ensures Respond(info).value.videoType == Recorded ==>
              (Truthy(Get(info.url)) && !IsHls(Get(info.url).value) && IsMp4(Get(info.url).value)
               && Respond(info).value.directUrl == Get(info.url).value)
              || (!Truthy(Get(info.url)) && AllPlain(FormatsOf(info))
                  && LastMp4Url(FormatsOf(info), Respond(info).value.directUrl))
  {
    var fs := FormatsOf(info);
    ScanOutcomes(fs, None);
    if !TopLevelDecides(info) {
      if exists k :: FirstHlsAt(fs, k) {
        var k :| FirstHlsAt(fs, k);
        ScanFindsFirstHls(fs, None, k);
      } else if AllPlain(fs) {
        if exists j :: 0 <= j < |fs| && QualifiesMp4(fs[j]) {
          var j :| 0 <= j < |fs| && QualifiesMp4(fs[j]);
          LastMp4Exists(fs, j);
          var k :| LastMp4At(fs, k);
          ScanKeepsLastMp4(fs, None, k);
        } else {
          ScanKeepsBest(fs, None);
        }
      }
    }
  }
}
