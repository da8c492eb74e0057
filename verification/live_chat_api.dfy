/**
  The request/response side of one page fetch of the chat replay endpoint
  (src/main.rs): the request URL, the three `?`-chained lookups into a
  response, the removal of the percent-encoded padding from the next
  continuation token, and what `fetch_live_chats_once` makes of a response.
  The HTTP exchange itself is a parameter: `Server` maps a request URL to the
  parsed response body, or to nothing when sending or decoding fails.
*/
module LiveChatApi {
  import opened Wrappers
  import opened Json
  import opened TextScan

  const ApiEndpoint: string := "https://www.youtube.com/youtubei/v1/live_chat/get_live_chat_replay?continuation="
  const KeyParam: string := "%253D&key="

  /** `build_api_url`: the endpoint, the token, an encoded `=` padding, then the key. */
  function BuildApiUrl(continuation: string, apiKey: string): (url: string)
    ensures |url| == |ApiEndpoint| + |continuation| + |KeyParam| + |apiKey|
    ensures url[..|ApiEndpoint|] == ApiEndpoint
    ensures url[|ApiEndpoint|..|ApiEndpoint| + |continuation|] == continuation
    ensures url[|ApiEndpoint| + |continuation|..|url| - |apiKey|] == KeyParam
    ensures url[|url| - |apiKey|..] == apiKey
  {
    ApiEndpoint + continuation + KeyParam + apiKey
  }

  /** With the key fixed, the URL determines the token: distinct tokens are distinct requests. */
  lemma ApiUrlDeterminesToken(c1: string, c2: string, apiKey: string)
    ensures BuildApiUrl(c1, apiKey) == BuildApiUrl(c2, apiKey) <==> c1 == c2
  {
    var u1, u2 := BuildApiUrl(c1, apiKey), BuildApiUrl(c2, apiKey);
    if u1 == u2 {
      assert c1 == u1[|ApiEndpoint|..|ApiEndpoint| + |c1|];
    }
  }

  /** Where a response holds the next token, the page's actions, and an action's video offset. */
  const ContinuationPath: seq<Step> := [Key("continuationContents"), Key("liveChatContinuation"),
    Key("continuations"), Index(0), Key("liveChatReplayContinuationData"), Key("continuation")]
  const ActionsPath: seq<Step> := [Key("continuationContents"), Key("liveChatContinuation"), Key("actions")]
  const TimestampPath: seq<Step> := [Key("replayChatItemAction"), Key("videoOffsetTimeMsec")]

  /** The text at `path`, when the walk succeeds and ends at a string. */
  function StrAt(data: Json, path: seq<Step>): Option<string> {
    match Walk(data, path)
    case Some(Str(s)) => Some(s)
    case _ => None
  }

  /** `extract_continuation_from_json` */
  function ExtractContinuation(data: Json): (r: Option<string>)
    ensures r == StrAt(data, ContinuationPath)
  {
    var contents :- Get(data, "continuationContents");
    var chat :- Get(contents, "liveChatContinuation");
    var continuations :- Get(chat, "continuations");
    var first :- At(continuations, 0);
    var replay :- Get(first, "liveChatReplayContinuationData");
    var continuation :- Get(replay, "continuation");
    AsStr(continuation)
  }

  /** `extract_actions_from_json`: the value found there, whatever its JSON type. */
  function ExtractActions(data: Json): (r: Option<Json>)
    ensures r == Walk(data, ActionsPath)
  {
    var contents :- Get(data, "continuationContents");
    var chat :- Get(contents, "liveChatContinuation");
    Get(chat, "actions")
  }

  /** `extract_timestamp_from_json`: the video offset of one chat action, as text. */
  function ExtractTimestamp(action: Json): (r: Option<string>)
    ensures r == StrAt(action, TimestampPath)
  {
    var item :- Get(action, "replayChatItemAction");
    var offset :- Get(item, "videoOffsetTimeMsec");
    AsStr(offset)
  }

  /** The encoded `=` that the server appends to every token it issues. */
  const Padding: string := "%3D"

  ghost predicate NoPadding(s: string) {
    forall i :: !OccursAt(s, i, Padding)
  }

  /** The occurrences in the tail of a text are those of the text, one index further on. */
  lemma OccursInTail(s: string, p: string)
    requires s != []
    ensures forall i :: 0 <= i ==> (OccursAt(s[1..], i, p) <==> OccursAt(s, i + 1, p))
    ensures forall i :: 1 <= i ==> (OccursAt(s, i, p) <==> OccursAt(s[1..], i - 1, p))
  {
    forall i | 0 <= i ensures OccursAt(s[1..], i, p) <==> OccursAt(s, i + 1, p) {
      if 0 <= i && i + |p| <= |s| - 1 {
        assert s[1..][i..i + |p|] == s[i + 1..i + 1 + |p|];
      }
    }
  }

  /**
    `str::replace("%3D", "")`: scanning left to right, every occurrence of the
    padding is dropped and the scan resumes after it, so matches never overlap.
  */
  function StripPadding(s: string): (r: string)
    ensures |r| <= |s|
    ensures NoPadding(s) ==> r == s
    decreases |s|
  {
    if OccursAt(s, 0, Padding) then
      StripPadding(s[3..])
    else if s == [] then
      []
    else
      OccursInTail(s, Padding);
      [s[0]] + StripPadding(s[1..])
  }

  /** The number of occurrences `StripPadding` removes. */
  function PaddingCount(s: string): nat
    decreases |s|
  {
    if OccursAt(s, 0, Padding) then 1 + PaddingCount(s[3..])
    else if s == [] then 0
    else PaddingCount(s[1..])
  }

  /** Every removal takes exactly three characters. */
  lemma {:induction false} StripPaddingLength(s: string)
    ensures |StripPadding(s)| == |s| - 3 * PaddingCount(s)
    decreases |s|
  {
    if OccursAt(s, 0, Padding) {
      StripPaddingLength(s[3..]);
    } else if s != [] {
      StripPaddingLength(s[1..]);
    }
  }

  /** Some occurrence is removed exactly when the text contains the padding. */
  lemma {:induction false} PaddingCountPositive(s: string)
    ensures PaddingCount(s) > 0 <==> !NoPadding(s)
    decreases |s|
  {
    if OccursAt(s, 0, Padding) {
    } else if s != [] {
      PaddingCountPositive(s[1..]);
      OccursInTail(s, Padding);
    }
  }

  /** A token is left as it is exactly when it holds no padding. */
  lemma StripPaddingFixedPoint(s: string)
    ensures StripPadding(s) == s <==> NoPadding(s)
  {
    StripPaddingLength(s);
    PaddingCountPositive(s);
  }

  /**
    Text that starts with `%` cannot complete an occurrence begun before it, so
    the removal works on the two parts separately.
  */
  lemma {:induction false} StripPaddingSplit(a: string, c: string)
    requires c == [] || c[0] == '%'
    ensures StripPadding(a + c) == StripPadding(a) + StripPadding(c)
    decreases |a|
  {
    if a == [] {
      assert a + c == c;
    } else if |a| >= 3 && OccursAt(a, 0, Padding) {
      assert (a + c)[..3] == a[..3];
      assert (a + c)[3..] == a[3..] + c;
      StripPaddingSplit(a[3..], c);
      assert StripPadding(a + c) == StripPadding(a[3..] + c);
    } else {
      assert !OccursAt(a + c, 0, Padding) by {
        if |a| >= 3 {
          assert (a + c)[..3] == a[..3];
        } else if c != [] && |a + c| >= 3 {
          assert (a + c)[..3][|a|] == '%';
        }
      }
      assert (a + c)[1..] == a[1..] + c;
      StripPaddingSplit(a[1..], c);
      assert StripPadding(a) == [a[0]] + StripPadding(a[1..]);
      assert StripPadding(a + c) == [a[0]] + StripPadding(a[1..] + c);
    }
  }

  /** A token that ends in the padding comes back without it; one that holds no other occurrence comes back as it was issued. */
  lemma StripTrailingPadding(t: string)
    ensures StripPadding(t + Padding) == StripPadding(t)
    ensures NoPadding(t) ==> StripPadding(t + Padding) == t
  {
    StripPaddingSplit(t, Padding);
    assert StripPadding(Padding) == [] by {
      assert OccursAt(Padding, 0, Padding);
      assert Padding[3..] == [];
    }
  }

  /** The removal is a single pass: applying it twice can remove more. */
  lemma StripPaddingNotIdempotent()
    ensures StripPadding("%3%3DD") == "%3D"
    ensures StripPadding(StripPadding("%3%3DD")) == ""
  {
    var s := "%3%3DD";
    assert !OccursAt(s, 0, Padding) by { assert s[..3] == "%3%"; }
    assert !OccursAt(s[1..], 0, Padding) by { assert s[1..][..3] == "3%3"; }
    assert OccursAt(s[2..], 0, Padding) by { assert s[2..][..3] == "%3D"; }
    assert s[2..][3..] == "D";
    assert StripPadding("D") == "D" by {
      assert !OccursAt("D", 0, Padding);
      assert "D"[1..] == [];
    }
    assert "%3D"[3..] == [];
  }

  /**
    The pure tail of `fetch_live_chats_once`: the next token (padding removed)
    and the actions, or nothing, which ends the replay.
  */
  function ProcessResponse(data: Json): (r: Option<(string, Json)>)
    ensures r.Some? <==> StrAt(data, ContinuationPath).Some? && Walk(data, ActionsPath).Some?
    ensures r.Some? ==> r.value.1 == Walk(data, ActionsPath).value
    ensures r.Some? ==> var raw := StrAt(data, ContinuationPath).value;
      r.value.0 == StripPadding(raw) && |r.value.0| == |raw| - 3 * PaddingCount(raw)
  {
    var continuation := ExtractContinuation(data);
    var actions := ExtractActions(data);
    if continuation.Some? && actions.Some? then
      StripPaddingLength(continuation.value);
      Some((StripPadding(continuation.value), actions.value))
    else
      None
  }

  /** What one call of `fetch_live_chats_once` returns: an `Err` from the exchange, or the processed response. */
  datatype FetchResult = FetchError | Fetched(page: Option<(string, Json)>)

  /** The HTTP exchange: request URL to parsed response body, nothing when it fails. */
  type Server = string -> Option<Json>

  /** `fetch_live_chats_once`: one request for `continuation`, and the processed response. */
  function FetchLiveChatsOnce(server: Server, continuation: string, apiKey: string): (r: FetchResult)
    ensures r.FetchError? <==> server(BuildApiUrl(continuation, apiKey)).None?
    ensures r.Fetched? ==> r.page == ProcessResponse(server(BuildApiUrl(continuation, apiKey)).value)
  {
    match server(BuildApiUrl(continuation, apiKey))
    case None => FetchError
    case Some(data) => Fetched(ProcessResponse(data))
  }

  /** A response that carries a page: the token and the actions where the extractors look for them. */
  function PageResponse(token: string, actions: Json): Json {
    Obj(map["continuationContents" := Obj(map["liveChatContinuation" := Obj(map[
      "continuations" := Arr([Obj(map["liveChatReplayContinuationData" := Obj(map["continuation" := Str(token)])])]),
      "actions" := actions])])])
  }

  /** A response whose page has actions but no further token: the last page of a replay. */
  function LastPageResponse(actions: Json): Json {
    Obj(map["continuationContents" := Obj(map["liveChatContinuation" := Obj(map["actions" := actions])])])
  }

  /** A page response yields its actions unchanged and its token with the padding removed. */
  lemma PageResponseRoundTrip(token: string, actions: Json)
    ensures ProcessResponse(PageResponse(token, actions)) == Some((StripPadding(token), actions))
  {
    var data := PageResponse(token, actions);
    var chat := Get(Get(data, "continuationContents").value, "liveChatContinuation").value;
    var replay := Get(At(Get(chat, "continuations").value, 0).value, "liveChatReplayContinuationData").value;
    assert Get(replay, "continuation") == Some(Str(token));
    assert ExtractContinuation(data) == Some(token);
    assert ExtractActions(data) == Some(actions);
  }

  /** The last page ends the replay, and its actions are not returned. */
  lemma LastPageEndsReplay(actions: Json)
    ensures ProcessResponse(LastPageResponse(actions)) == None
  {
    var data := LastPageResponse(actions);
    var chat := Get(Get(data, "continuationContents").value, "liveChatContinuation").value;
    assert Get(chat, "continuations") == None;
    assert ExtractContinuation(data) == None;
  }
}
