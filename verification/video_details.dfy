/**
  The video page scraper (src/video_details.rs): the watch-page URL, the three
  fixed-pattern extractors that read the API key, the first continuation token
  and the stream duration out of the page's HTML, and `VideoDetails::get`,
  which builds the record from them. The page is an input here; retrieving it
  over HTTP is not part of this model.
*/
module VideoDetails {
  import opened Wrappers
  import opened TextScan

  /** What the replay engine needs to know about one video. */
  datatype VideoDetails = VideoDetails(videoId: string, apiKey: string, continuation: string, duration: int)

  const WatchUrlPrefix: string := "https://www.youtube.com/watch?v="

  /** `build_video_url`: the watch page of a video. */
  function BuildVideoUrl(videoId: string): (url: string)
    ensures |url| == |WatchUrlPrefix| + |videoId|
    ensures url[..|WatchUrlPrefix|] == WatchUrlPrefix
    ensures url[|WatchUrlPrefix|..] == videoId
  {
    WatchUrlPrefix + videoId
  }

  /** Different videos have different watch pages. */
  lemma VideoUrlInjective(id1: string, id2: string)
    ensures BuildVideoUrl(id1) == BuildVideoUrl(id2) <==> id1 == id2
  {
    if BuildVideoUrl(id1) == BuildVideoUrl(id2) {
      assert id1 == BuildVideoUrl(id1)[|WatchUrlPrefix|..];
    }
  }

  /**
    `"INNERTUBE_API_KEY":"(.*?)"`. `.` is any character but a newline, and the
    lazy `*?` stops at the first quote, so the capture is a run of characters
    other than quote and newline, followed by a quote.
  */
  const ApiKeyPattern: Pattern := Pattern("\"INNERTUBE_API_KEY\":\"", c => c != '"' && c != '\n', false, "\"")

  /** `"continuation":"([a-zA-Z0-9]+)"` */
  const ContinuationPattern: Pattern := Pattern("\"continuation\":\"", IsAsciiAlnum, true, "\"")

  /** `\\"approxDurationMs\\":\\"(\d+)\\"`: the page holds the escaped text `\"approxDurationMs\":\"<digits>\"`. */
  const DurationPattern: Pattern := Pattern("\\\"approxDurationMs\\\":\\\"", IsAsciiDigit, true, "\\\"")

  /** The largest value of Rust's `i32`. */
  const I32Max: int := 0x7fff_ffff

  /** `extract_api_key_from_html`: the capture of the leftmost match of the key pattern. */
  function ExtractApiKey(html: string): (r: Option<string>)
    ensures r.None? <==> forall i, key :: !MatchAt(ApiKeyPattern, html, i, key)
    ensures r.Some? ==> exists i :: MatchAt(ApiKeyPattern, html, i, r.value) && NoMatchBefore(ApiKeyPattern, html, i)
    ensures r.Some? ==> '"' !in r.value && '\n' !in r.value
  {
    var r := Captures(ApiKeyPattern, html);
    assert r.Some? ==> forall k :: 0 <= k < |r.value| ==> r.value[k] != '"' && r.value[k] != '\n' by {
      if r.Some? {
        var i :| MatchAt(ApiKeyPattern, html, i, r.value) && NoMatchBefore(ApiKeyPattern, html, i);
      }
    }
    r
  }

  /** `extract_continuation_from_html`: the capture of the leftmost match of the token pattern. */
  function ExtractContinuation(html: string): (r: Option<string>)
    ensures r.None? <==> forall i, token :: !MatchAt(ContinuationPattern, html, i, token)
    ensures r.Some? ==> exists i :: MatchAt(ContinuationPattern, html, i, r.value) && NoMatchBefore(ContinuationPattern, html, i)
    ensures r.Some? ==> r.value != [] && forall k :: 0 <= k < |r.value| ==> IsAsciiAlnum(r.value[k])
  {
    var r := Captures(ContinuationPattern, html);
    assert r.Some? ==> r.value != [] && forall k :: 0 <= k < |r.value| ==> IsAsciiAlnum(r.value[k]) by {
      if r.Some? {
        var i :| MatchAt(ContinuationPattern, html, i, r.value) && NoMatchBefore(ContinuationPattern, html, i);
      }
    }
    r
  }

  /** What `extract_duration_from_html` does: no match, a duration, or a panic in `parse().unwrap()`. */
  datatype DurationCapture = NoDuration | Duration(ms: int) | DurationOverflow

  /** `str::parse::<i32>` of a digit string, which fails only when the value does not fit. */
  function ParseI32(digits: string): (r: DurationCapture)
    requires IsDigits(digits)
    ensures r.Duration? || r.DurationOverflow?
    ensures r.Duration? <==> DecimalValue(digits) <= I32Max
    ensures r.Duration? ==> r.ms == DecimalValue(digits)
  {
    var n := DecimalValue(digits);
    if n <= I32Max then Duration(n) else DurationOverflow
  }

  /** `extract_duration_from_html`: the decimal value of the leftmost duration capture. */
  function ExtractDuration(html: string): (r: DurationCapture)
    ensures r.NoDuration? <==> forall i, digits :: !MatchAt(DurationPattern, html, i, digits)
    ensures !r.NoDuration? ==> exists i, digits ::
      && MatchAt(DurationPattern, html, i, digits)
      && NoMatchBefore(DurationPattern, html, i)
      && IsDigits(digits)
      && r == ParseI32(digits)
    ensures r.Duration? ==> 0 <= r.ms <= I32Max
  {
    match Captures(DurationPattern, html)
    case None => NoDuration
    case Some(digits) =>
      assert IsDigits(digits) by {
        var i :| MatchAt(DurationPattern, html, i, digits) && NoMatchBefore(DurationPattern, html, i);
      }
      ParseI32(digits)
  }

  /** Why `VideoDetails::get` panics: the first extractor, in field order, that has no result. */
  datatype GetError = ApiKeyNotFound | ContinuationNotFound | DurationNotFound | DurationTooLarge

  /** `VideoDetails::get` with the page given: the record, or the `unwrap` that panics first. */
  function Get(videoId: string, html: string): (r: Result<VideoDetails, GetError>)
    ensures r.Ok? <==> ExtractApiKey(html).Some? && ExtractContinuation(html).Some? && ExtractDuration(html).Duration?
    ensures r.Ok? ==> r.value.videoId == videoId
    ensures r.Ok? ==> Some(r.value.apiKey) == ExtractApiKey(html)
    ensures r.Ok? ==> Some(r.value.continuation) == ExtractContinuation(html)
    ensures r.Ok? ==> Duration(r.value.duration) == ExtractDuration(html)
    ensures r == Err(ApiKeyNotFound) <==> ExtractApiKey(html).None?
    ensures r == Err(ContinuationNotFound) <==> ExtractApiKey(html).Some? && ExtractContinuation(html).None?
    ensures r == Err(DurationNotFound) <==>
      ExtractApiKey(html).Some? && ExtractContinuation(html).Some? && ExtractDuration(html).NoDuration?
    ensures r == Err(DurationTooLarge) <==>
      ExtractApiKey(html).Some? && ExtractContinuation(html).Some? && ExtractDuration(html).DurationOverflow?
  {
    match (ExtractApiKey(html), ExtractContinuation(html), ExtractDuration(html))
    case (None, _, _) => Err(ApiKeyNotFound)
    case (Some(_), None, _) => Err(ContinuationNotFound)
    case (Some(_), Some(_), NoDuration) => Err(DurationNotFound)
    case (Some(_), Some(_), DurationOverflow) => Err(DurationTooLarge)
    case (Some(key), Some(token), Duration(ms)) => Ok(VideoDetails(videoId, key, token, ms))
  }

  /** A page that begins with the key pattern yields exactly the key written there. */
  lemma ApiKeyRoundTrip(key: string, rest: string)
    requires '"' !in key && '\n' !in key
    ensures ExtractApiKey(ApiKeyPattern.prefix + key + "\"" + rest) == Some(key)
  {
    CapturesAtStart(ApiKeyPattern, key, rest);
  }

  /** A page that begins with the token pattern yields exactly the token written there. */
  lemma ContinuationRoundTrip(token: string, rest: string)
    requires token != [] && forall k :: 0 <= k < |token| ==> IsAsciiAlnum(token[k])
    ensures ExtractContinuation(ContinuationPattern.prefix + token + "\"" + rest) == Some(token)
  {
    CapturesAtStart(ContinuationPattern, token, rest);
  }

  /**
    A page that begins with the duration pattern around the decimal spelling
    of `ms` yields `ms` when it fits in an `i32`, and the parse panic otherwise.
  */
  lemma DurationRoundTrip(ms: nat, rest: string)
    ensures ExtractDuration(DurationPattern.prefix + ShowDecimal(ms) + "\\\"" + rest)
      == if ms <= I32Max then Duration(ms) else DurationOverflow
  {
    CapturesAtStart(DurationPattern, ShowDecimal(ms), rest);
    DecimalRoundTrip(ms);
  }

  /** A duration of at most nine digits always fits, so only longer captures can panic. */
  lemma ShortDurationsFit(digits: string)
    requires IsDigits(digits) && |digits| <= 9
    ensures ParseI32(digits) == Duration(DecimalValue(digits))
  {
    Pow10Monotone(|digits|, 9);
  }

  lemma {:induction false} Pow10Monotone(j: nat, k: nat)
    requires j <= k
    ensures Pow10(j) <= Pow10(k)
    decreases k
  {
    if j < k {
      Pow10Monotone(j, k - 1);
    }
  }
}
