# chat_scraper in Dafny

chat_scraper downloads the chat replay of a finished YouTube live stream,
except the actions of its last page (see below). It first reads the video's
watch page. From it, it takes the API key (`INNERTUBE_API_KEY`), the first
continuation token and the stream duration (`VideoDetails::get`). It then
walks the replay endpoint page by page: each response carries the page's chat
actions and, on every page but the last, the token of the next page. A
producer thread fetches the pages and sends each page's batch of actions
over an `mpsc` channel. The main thread receives the batches and appends them
to the result. After a batch whose last action has a string
`videoOffsetTimeMsec`, it prints a progress line.

This project models that core and proves properties of it.

| file | module | models |
|---|---|---|
| `wrappers.dfy` | `Wrappers` | Rust's `Option` (usable with `:-` like `?`) and `Result` |
| `json.dfy` | `Json` | serde_json's `Value`; `get` by key and by index; `as_str`; a generic path walk used as the reference for the extractors |
| `text_scan.dfy` | `TextScan` | leftmost-match search for the three fixed regular expressions, and decimal parsing |
| `video_details.dfy` | `VideoDetails` | `VideoDetails`, `build_video_url`, the three HTML extractors, and `get` with the page given |
| `live_chat_api.dfy` | `LiveChatApi` | `build_api_url`, the three JSON extractors, the `%3D` removal, and what `fetch_live_chats_once` makes of a response |
| `live_chat_replay.dfy` | `LiveChatReplay` | `fetch_all_live_chats`: the producer loop, the channel and the receiving loop |

How the model is built:

- The HTTP exchange is a parameter. `LiveChatApi.Server` maps a request URL
  to the parsed response body, or to nothing when sending or decoding fails.
  The watch page's HTML is passed to `VideoDetails.Get`.
- The producer and the receiving loop are each specified by a function.
  `Producer` is what the producer thread does, given the server's answers.
  `Consumer` is what the receiving loop makes of the batches, in the order
  they were sent.
- `LiveChatReplay.Replay` runs both sides imperatively over an explicit FIFO
  channel (`seq<seq<Json>>`). When both sides can move, an arbitrary
  scheduler `consumerFirst` decides which one does. Its postcondition ties
  the outcome to `Producer` and `Consumer`, so the result does not depend on
  the interleaving.
- Every `unwrap` of the modelled core that can fail is an explicit outcome,
  except those listed under "Left out". `VideoDetails.GetError`
  covers the extractors in `get`. `LiveChatReplay.Panic` covers the fetch,
  `as_array_mut`, `last` and `get` unwraps of `fetch_all_live_chats`.

Three facts about the code shape the replay:

- **The last page is dropped.** A response without a continuation token
  makes `fetch_live_chats_once` return `None`, even when it carries actions.
  The producer then stops, and those actions are never sent.
  `LiveChatReplay.ThreePageReplay` proves that pages of 3, 2 and 1 actions
  give five records.
- **All padding goes.** `str::replace` removes every non-overlapping `%3D` in
  one left-to-right pass, not only a trailing one. `LiveChatApi.StripPadding`
  models that.
- **Missing actions end the stream.** A response that has a token but no
  `actions` also ends the stream, as does any response in which either
  lookup fails.

## Model

| member | source | states |
|---|---|---|
| `VideoDetails.BuildVideoUrl` | src/video_details.rs:35-37 | the URL is the watch-page prefix followed by exactly the video id |
| `VideoDetails.VideoUrlInjective` | src/video_details.rs:35-37 | two ids give the same URL exactly when they are equal |
| `VideoDetails.ExtractApiKey` | src/video_details.rs:39-45 | `None` exactly when no key pattern matches anywhere; otherwise the capture of a match with no match before it, which holds neither `"` nor a newline |
| `VideoDetails.ApiKeyRoundTrip` | src/video_details.rs:39-45 | a page that starts with the key pattern around a key free of `"` and newlines yields that key |
| `VideoDetails.ExtractContinuation` | src/video_details.rs:47-53 | `None` exactly when the token pattern matches nowhere; otherwise the capture of the leftmost match, which is non-empty and ASCII alphanumeric |
| `VideoDetails.ContinuationRoundTrip` | src/video_details.rs:47-53 | a page that starts with the token pattern around a non-empty alphanumeric token yields that token |
| `VideoDetails.ParseI32` | src/video_details.rs:58 | `parse::<i32>` of a digit string succeeds exactly when its value is at most `i32::MAX`, and then gives that value |
| `VideoDetails.ExtractDuration` | src/video_details.rs:55-61 | no duration exactly when the duration pattern matches nowhere; otherwise the i32 parse of the leftmost digit capture; a duration is in `0..=i32::MAX` |
| `VideoDetails.DurationRoundTrip` | src/video_details.rs:55-61 | the decimal spelling of `ms` in the duration pattern yields `ms` when it fits in an i32, and the parse panic otherwise |
| `VideoDetails.ShortDurationsFit` | src/video_details.rs:58 | a capture of at most nine digits never makes the parse panic |
| `VideoDetails.Get` | src/video_details.rs:15-23 | a record exactly when all three extractors succeed, holding the given id and their three results; otherwise the first failing `unwrap` in field order: no key, no token, no duration (the `unwrap` at line 21), or a duration above `i32::MAX` (the parse panic at line 58) |
| `TextScan.CaptureAt` | src/video_details.rs:41-43 | the match attempt at one index returns the only capture with which the pattern matches there, if any |
| `TextScan.MatchIsLongestRun` | src/video_details.rs:48 | a match captures the longest run of class characters after the prefix, and the suffix follows that run |
| `TextScan.FirstCapture` | src/video_details.rs:41-43 | the first index from a start position at which the pattern matches, and its capture; none when no later index matches |
| `TextScan.Captures` | src/video_details.rs:41-44 | `Regex::captures` plus group 1: none exactly when the pattern matches nowhere, else the capture of a match with no match before it |
| `TextScan.CapturesLeftmost` | src/video_details.rs:48-50 | any match with no earlier match is the one reported, so an earlier prefix occurrence that does not complete a match is skipped |
| `TextScan.CapturesAtStart` | src/video_details.rs:41-44 | a text that begins with a match reports exactly the capture placed there |
| `TextScan.DecimalValue` | src/video_details.rs:58 | the value of a digit string is below 10 to the power of its length |
| `TextScan.DecimalRoundTrip` | src/video_details.rs:58 | parsing the decimal spelling of a number gives the number back |
| `Json.Get` | src/main.rs:28-33 | `Value::get` with a key is defined exactly on objects that hold the key, and gives its member |
| `Json.At` | src/main.rs:31 | `Value::get` with an index is defined exactly on arrays long enough, and gives the element |
| `Json.AsStr` | src/main.rs:34 | `as_str` is defined exactly on strings, and gives their text |
| `Json.WalkAppend` | src/main.rs:27-35 | following `p + q` is following `p`, then `q` from where `p` led |
| `Json.WalkStopsAtMissing` | src/main.rs:27-35 | once one lookup fails, every longer path fails (the `?` short-circuit) |
| `LiveChatApi.BuildApiUrl` | src/main.rs:18-24 | the URL is the endpoint, then the token, then `%253D&key=`, then the key, with nothing else |
| `LiveChatApi.ApiUrlDeterminesToken` | src/main.rs:18-24 | with the key fixed, two tokens give the same URL exactly when they are equal |
| `LiveChatApi.ExtractContinuation` | src/main.rs:26-36 | the chained lookups give the text at `continuationContents.liveChatContinuation.continuations[0].liveChatReplayContinuationData.continuation` when that walk succeeds and ends at a string, and `None` otherwise |
| `LiveChatApi.ExtractActions` | src/main.rs:38-44 | the value at `continuationContents.liveChatContinuation.actions`, of any JSON type, or `None` when a step is missing |
| `LiveChatApi.ExtractTimestamp` | src/main.rs:46-52 | the text at `replayChatItemAction.videoOffsetTimeMsec` when present and a string, else `None` |
| `LiveChatApi.StripPadding` | src/main.rs:68 | the removal never lengthens the token, and leaves a token without `%3D` unchanged |
| `LiveChatApi.StripPaddingLength` | src/main.rs:68 | the result is three characters shorter per occurrence removed |
| `LiveChatApi.PaddingCountPositive` | src/main.rs:68 | something is removed exactly when the token contains `%3D` |
| `LiveChatApi.StripPaddingFixedPoint` | src/main.rs:68 | a token is returned unchanged exactly when it contains no `%3D` |
| `LiveChatApi.StripPaddingSplit` | src/main.rs:68 | text that starts with `%` cannot complete an occurrence begun before it, so the removal works on the two parts separately |
| `LiveChatApi.StripTrailingPadding` | src/main.rs:68 | a token issued with a trailing `%3D` comes back without it, and exactly as issued when it holds no other occurrence |
| `LiveChatApi.StripPaddingNotIdempotent` | src/main.rs:68 | one pass over `%3%3DD` leaves `%3D`, which a second pass would remove |
| `LiveChatApi.ProcessResponse` | src/main.rs:65-71 | a page exactly when both the token and the actions are present; then the actions unchanged and the token with every `%3D` removed, shorter by three per occurrence |
| `LiveChatApi.FetchLiveChatsOnce` | src/main.rs:54-72 | an error exactly when the exchange for the request URL of the token and key fails; otherwise the processed response for that URL |
| `LiveChatApi.PageResponseRoundTrip` | src/main.rs:65-71 | a response holding a token and actions where the extractors look gives the actions and the token without padding |
| `LiveChatApi.LastPageEndsReplay` | src/main.rs:65-71 | a response with actions but no token ends the replay, and its actions are not returned |
| `LiveChatReplay.Fetcher` | src/main.rs:82 | the producer's call `fetch_live_chats_once(&client, &continuation, &api_key)`: an error exactly when the exchange for that token's URL fails, otherwise the processed response |
| `LiveChatReplay.Producer` | src/main.rs:81-93 | the producer thread's `loop`: at most `fuel` fetches, the first for the initial token, and one batch sent per fetch except the one that stops it |
| `LiveChatReplay.ProducerChain` | src/main.rs:76-87 | the first fetch uses the initial token; every later fetch uses the token returned by the fetch before it; every batch sent, including the last before the fetch bound, is the actions array of the fetch with the same index; at most `fuel` fetches |
| `LiveChatReplay.ProducerFuelSpent` | src/main.rs:81-93 | the producer is cut off by the fetch bound exactly when every one of its fetches sent a batch |
| `LiveChatReplay.ProducerLastFetch` | src/main.rs:81-93 | otherwise the last fetch says why it stopped: an error panics, `None` ends the stream, a non-array `actions` panics |
| `LiveChatReplay.ProducerSends` | src/main.rs:82-86 | a page with an actions array sends that batch first, then the producer carries on from the new token |
| `LiveChatReplay.ProducerStops` | src/main.rs:82-91 | any other answer ends the producer after that fetch, sending nothing |
| `LiveChatReplay.ProducerOfChain` | src/main.rs:81-93 | when fetch K is the first to end the stream, exactly K fetches are made, along the token chain, and the K - 1 earlier batches are sent in fetch order |
| `LiveChatReplay.ReportOf` | src/main.rs:96-103 | the progress line is printed exactly when the batch's last action has a timestamp, and then carries that timestamp and the given count |
| `LiveChatReplay.ConsumeBatch` | src/main.rs:96-104 | one pass of the receiving loop: it panics exactly on an empty batch, which changes nothing else; otherwise the batch is appended and its report carries the result's new length |
| `LiveChatReplay.Consumer` | src/main.rs:95-105 | the receiving loop over the batches in sent order: one report per batch taken, and all batches taken unless it panicked |
| `LiveChatReplay.ConsumerTakesPrefix` | src/main.rs:95-105 | the receiver takes the batches in order up to the first empty one, where it panics; the result is the concatenation of the batches taken, and it takes all exactly when none is empty |
| `LiveChatReplay.AllBatchesTaken` | src/main.rs:95-105 | with no empty batch the result is exactly the concatenation of all batches, with one report each |
| `LiveChatReplay.ConsumerReports` | src/main.rs:96-104 | the j-th report belongs to the j-th batch, which is non-empty; its count is the length of the result after that batch is appended |
| `LiveChatReplay.ProgressCountsIncrease` | src/main.rs:100 | the counts on the printed progress lines strictly increase |
| `LiveChatReplay.ConsumerStopsAtPanic` | src/main.rs:95-96 | once the receiver has panicked, later batches change nothing |
| `LiveChatReplay.ReceiveOldest` | src/main.rs:95 | the receiver takes the oldest batch in the channel, then carries on with the rest of the channel and the batches still to be sent |
| `LiveChatReplay.Verdict` | src/main.rs:82-106 | a panic of the receiver (`last().unwrap()`, line 96) decides the run; otherwise `handle.join().unwrap()` passes on the producer's fetch panic (line 82) as `FetchUnwrap` and its `as_array_mut` panic (line 85) as `ArrayUnwrap`, each exactly when the producer ended that way; a clean end of the stream completes the run |
| `LiveChatReplay.FetchAllLiveChats` | src/main.rs:74-109 | a failed `get` panics with its cause and fetches nothing; otherwise the outcome, result and progress lines are those of `Producer` and `Consumer`, whatever the interleaving; every fetch made is one of the producer's, and all of them are made unless the receiver panics |
| `LiveChatReplay.Replay` | src/main.rs:79-108 | the two threads over a FIFO channel, in any interleaving, give the producer's and receiver's specified outcome, result and progress lines |
| `LiveChatReplay.ProduceOnce` | src/main.rs:82-92 | one pass of the producer loop: one fetch, and the channel followed by the batches still to be sent is unchanged in content and order |
| `LiveChatReplay.Receive` | src/main.rs:95-105 | one pass of the receiving loop: a panic on an empty batch; otherwise one report and the batch appended |
| `LiveChatReplay.ReplayOfChain` | src/main.rs:80-105 | when fetch K is the first to end the stream and every earlier batch is non-empty, the run completes after exactly K fetches with the K - 1 batches concatenated in fetch order |
| `LiveChatReplay.ServedPage` | src/main.rs:65-71 | a server answering a token's request with a page gives the producer that page's actions and its token without the trailing `%3D` |
| `LiveChatReplay.ServedLastPage` | src/main.rs:65-71 | a server answering a token's request with a last page ends the producer's stream there |
| `LiveChatReplay.ThreePageReplay` | src/main.rs:74-109 | pages of 3, 2 and 1 actions under tokens T0, T1 and T2 take three fetches and complete with the five actions of the first two pages |

## Left out

- HTTP: the `reqwest` client, `fetch_raw_html`, the `POST_BODY` payload and the request headers are network I/O. The server is the parameter `LiveChatApi.Server`, and the HTML is an argument of `VideoDetails.Get`.
- `fetch_raw_html(..).unwrap()` in `get`: a failed page download is not a case of `VideoDetails.GetError`, because the page is an input.
- Threads: the producer thread and the `mpsc` channel are an explicit FIFO with an arbitrary schedule. A panic in the main thread ends the model's run at once, which leaves the producer's remaining work undone. The `send(..).unwrap()` failure, which needs a dropped receiver, is not modelled.
- LiveChatReplay.Receive: the `f64` parse of the timestamp and the percentage printed from it are floating point and are not modelled. The model takes the parse to succeed, so a non-numeric timestamp does not panic here. The duration only feeds that percentage and is not used.
- LiveChatReplay.FetchAllLiveChats: the producer makes at most `fuel` fetches, and the outcome `FuelExhausted` has no counterpart in the code. A run that the bound cuts short says nothing about a longer replay.
- LiveChatReplay.FetchAllLiveChats: after the receiver panics, the number of fetches is only bounded by the producer's, because the producer's progress at that moment depends on the schedule.
- Printing: the progress line's text, `print!`, the `io::stdout().flush().unwrap()` after it (src/main.rs:102), stdin, `main` and the `<id>-chats.json` file write are user interface and persistence.
- Regular expressions: only the three fixed patterns are modelled, as scans over characters. Rust's `\d` also accepts non-ASCII decimal digits; the model accepts ASCII digits only.
- JSON numbers are unbounded integers. No extractor reads a number.
