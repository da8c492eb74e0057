/**
  `fetch_all_live_chats` (src/main.rs): a producer thread walks the chain of
  continuation tokens, one fetch at a time, and sends each page's batch of
  chat actions over an `mpsc` channel; the main thread receives the batches in
  order, prints a progress line for a batch whose last action has a
  timestamp, and appends the batch to the result.

  The two sides are specified separately. `Producer` is what the producer
  thread does, given the server's answers; `Consumer` is what the receiving
  loop makes of the batches, in the order they were sent. The method
  `Replay` runs both over an explicit FIFO channel, letting an
  arbitrary scheduler (`consumerFirst`) decide at each step which side moves
  when both can; its postcondition does not depend on that choice.
*/
module LiveChatReplay {
  import opened Wrappers
  import opened Json
  import opened LiveChatApi
  import VideoDetails

  /** How the producer thread stops. */
  datatype ProducerEnd =
    | StreamEnded   // a response without token or actions: `break`
    | FetchPanicked // `fetch_live_chats_once(..).unwrap()` on an `Err`
    | ArrayPanicked // `as_array_mut().unwrap()` on actions that are not an array
    | FuelSpent     // the fetch bound of this model was reached

  /** The producer's run: the token of every fetch in order, and every batch it sent. */
  datatype Transcript = Transcript(tokens: seq<string>, sent: seq<seq<Json>>, end: ProducerEnd)

  /** The producer's view of the server: the result of `fetch_live_chats_once` for each token. */
  type Fetch = string -> FetchResult

  function Fetcher(server: Server, apiKey: string): (fetch: Fetch)
    ensures forall token :: fetch(token).FetchError? <==> server(BuildApiUrl(token, apiKey)).None?
    ensures forall token :: fetch(token).Fetched? ==>
      fetch(token).page == ProcessResponse(server(BuildApiUrl(token, apiKey)).value)
  {
    token => FetchLiveChatsOnce(server, token, apiKey)
  }

  /** The producer thread's `loop`, started from `continuation`, making at most `fuel` fetches. */
  function Producer(fetch: Fetch, continuation: string, fuel: nat): (t: Transcript)
    ensures |t.sent| <= |t.tokens| <= fuel
    ensures fuel > 0 ==> t.tokens != [] && t.tokens[0] == continuation
    ensures t.end != FuelSpent ==> |t.sent| == |t.tokens| - 1
    decreases fuel
  {
    if fuel == 0 then
      Transcript([], [], FuelSpent)
    else
      var fetched := fetch(continuation);
      if fetched.FetchError? then
        Transcript([continuation], [], FetchPanicked)
      else if fetched.page.None? then
        Transcript([continuation], [], StreamEnded)
      else if !fetched.page.value.1.Arr? then
        Transcript([continuation], [], ArrayPanicked)
      else
        var rest := Producer(fetch, fetched.page.value.0, fuel - 1);
        Transcript([continuation] + rest.tokens, [fetched.page.value.1.items] + rest.sent, rest.end)
  }

  /**
    Token chaining: the first fetch uses the initial token, every later fetch
    the token returned by the one before, and every batch sent is the actions
    array of the fetch that returned it.
  */
  lemma {:induction false} ProducerChain(fetch: Fetch, continuation: string, fuel: nat)
    ensures var t := Producer(fetch, continuation, fuel);
      && |t.tokens| <= fuel
      && (fuel > 0 ==> t.tokens != [] && t.tokens[0] == continuation)
      && |t.sent| == (if t.end == FuelSpent then |t.tokens| else |t.tokens| - 1)
      && (forall i :: 0 <= i < |t.tokens| - 1 ==>
            fetch(t.tokens[i]) == Fetched(Some((t.tokens[i + 1], Arr(t.sent[i])))))
      && (forall i :: 0 <= i < |t.sent| ==>
            var f := fetch(t.tokens[i]); f.Fetched? && f.page.Some? && f.page.value.1 == Arr(t.sent[i]))
    decreases fuel
  {
    var fetched := fetch(continuation);
    if fuel > 0 && fetched.Fetched? && fetched.page.Some? && fetched.page.value.1.Arr? {
      ProducerChain(fetch, fetched.page.value.0, fuel - 1);
    }
  }

  /** The producer stops for want of fuel exactly when every one of its `fuel` fetches sent a batch. */
  lemma {:induction false} ProducerFuelSpent(fetch: Fetch, continuation: string, fuel: nat)
    ensures var t := Producer(fetch, continuation, fuel);
      t.end == FuelSpent <==> |t.tokens| == fuel && |t.sent| == fuel
    decreases fuel
  {
    var fetched := fetch(continuation);
    if fuel > 0 && fetched.Fetched? && fetched.page.Some? && fetched.page.value.1.Arr? {
      ProducerFuelSpent(fetch, fetched.page.value.0, fuel - 1);
    }
  }

  /** Otherwise the last fetch made is the one whose answer says why it stopped. */
  lemma {:induction false} ProducerLastFetch(fetch: Fetch, continuation: string, fuel: nat)
    ensures var t := Producer(fetch, continuation, fuel);
      t.end != FuelSpent ==>
        && t.tokens != []
        && var last := fetch(t.tokens[|t.tokens| - 1]);
        && (t.end == StreamEnded <==> last.Fetched? && last.page.None?)
        && (t.end == FetchPanicked <==> last.FetchError?)
        && (t.end == ArrayPanicked <==> last.Fetched? && last.page.Some? && !last.page.value.1.Arr?)
    decreases fuel
  {
    var fetched := fetch(continuation);
    if fuel > 0 && fetched.Fetched? && fetched.page.Some? && fetched.page.value.1.Arr? {
      var t := Producer(fetch, continuation, fuel);
      var rest := Producer(fetch, fetched.page.value.0, fuel - 1);
      ProducerLastFetch(fetch, fetched.page.value.0, fuel - 1);
      assert t.tokens == [continuation] + rest.tokens;
      if rest.tokens != [] {
        assert t.tokens[|t.tokens| - 1] == rest.tokens[|rest.tokens| - 1];
      }
    }
  }

  /** A fetch that returns a page with an actions array sends it, and the producer carries on from the new token. */
  lemma ProducerSends(fetch: Fetch, continuation: string, fuel: nat, next: string, batch: seq<Json>)
    requires fuel > 0 && fetch(continuation) == Fetched(Some((next, Arr(batch))))
    ensures var now, later := Producer(fetch, continuation, fuel), Producer(fetch, next, fuel - 1);
      && |now.tokens| == 1 + |later.tokens|
      && now.sent == [batch] + later.sent
      && now.end == later.end
  {
  }

  /** Any other answer ends the producer after that one fetch, sending nothing. */
  lemma ProducerStops(fetch: Fetch, continuation: string, fuel: nat)
    requires fuel > 0
    requires var f := fetch(continuation); !(f.Fetched? && f.page.Some? && f.page.value.1.Arr?)
    ensures var f := fetch(continuation);
      Producer(fetch, continuation, fuel) == Transcript([continuation], [],
        if f.FetchError? then FetchPanicked else if f.page.None? then StreamEnded else ArrayPanicked)
  {
  }

  /**
    Termination: when the K-th fetch of a token chain is the first to end the
    stream, the producer makes exactly those K fetches and sends the K - 1
    batches before it, in fetch order; the ending page sends nothing.
  */
  lemma {:induction false} ProducerOfChain(fetch: Fetch, tokens: seq<string>, batches: seq<seq<Json>>, fuel: nat)
    requires |tokens| == |batches| + 1 <= fuel
    requires forall i :: 0 <= i < |batches| ==>
      fetch(tokens[i]) == Fetched(Some((tokens[i + 1], Arr(batches[i]))))
    requires fetch(tokens[|batches|]) == Fetched(None)
    ensures Producer(fetch, tokens[0], fuel) == Transcript(tokens, batches, StreamEnded)
    decreases |batches|
  {
    if batches != [] {
      assert fetch(tokens[0]) == Fetched(Some((tokens[1], Arr(batches[0]))));
      forall i | 0 <= i < |batches| - 1
        ensures fetch(tokens[1..][i]) == Fetched(Some((tokens[1..][i + 1], Arr(batches[1..][i]))))
      {
        assert fetch(tokens[i + 1]) == Fetched(Some((tokens[i + 2], Arr(batches[i + 1]))));
      }
      ProducerOfChain(fetch, tokens[1..], batches[1..], fuel - 1);
      assert [tokens[0]] + tokens[1..] == tokens;
      assert [batches[0]] + batches[1..] == batches;
    }
  }

  /** The concatenation of batches, in order. */
  function Flatten(batches: seq<seq<Json>>): seq<Json>
    decreases |batches|
  {
    if batches == [] then [] else Flatten(batches[..|batches| - 1]) + batches[|batches| - 1]
  }

  /** What the receiving loop printed for one batch: nothing, or the timestamp and the running total. */
  datatype Report = Silent | Printed(timestamp: string, total: nat)

  /** The state of the receiving loop: the result so far, one report per batch, and whether it panicked. */
  datatype Consumed = Consumed(chats: seq<Json>, reports: seq<Report>, panicked: bool)

  /** The progress line for a non-empty batch: printed when its last action has a timestamp, with the new result length. */
  function ReportOf(actions: seq<Json>, total: nat): (r: Report)
    requires actions != []
    ensures r.Printed? <==> ExtractTimestamp(actions[|actions| - 1]).Some?
    ensures r.Printed? ==> r.timestamp == ExtractTimestamp(actions[|actions| - 1]).value && r.total == total
  {
    match ExtractTimestamp(actions[|actions| - 1])
    case Some(ts) => Printed(ts, total)
    case None => Silent
  }

  /**
    One pass of `for mut actions in recv`: `last().unwrap()` panics on an empty
    batch; otherwise the progress line is reported and the batch is appended.
  */
  function ConsumeBatch(c: Consumed, actions: seq<Json>): (r: Consumed)
    ensures r.panicked <==> actions == []
    ensures actions == [] ==> r.chats == c.chats && r.reports == c.reports
    ensures actions != [] ==>
      && r.chats == c.chats + actions
      && r.reports == c.reports + [ReportOf(actions, |r.chats|)]
  {
    if actions == [] then
      c.(panicked := true)
    else
      Consumed(c.chats + actions, c.reports + [ReportOf(actions, |c.chats| + |actions|)], false)
  }

  /** The receiving loop over the batches in the order they arrive; a panic stops it. */
  function Consumer(batches: seq<seq<Json>>): (c: Consumed)
    ensures |c.reports| <= |batches|
    ensures !c.panicked ==> |c.reports| == |batches|
    decreases |batches|
  {
    if batches == [] then
      Consumed([], [], false)
    else
      var before := Consumer(batches[..|batches| - 1]);
      if before.panicked then before else ConsumeBatch(before, batches[|batches| - 1])
  }

  /**
    Order and completeness: the receiver takes the batches in order up to the
    first empty one, where it panics; the result is the concatenation of the
    batches it took, and it takes all of them exactly when none is empty.
  */
  lemma {:induction false} ConsumerTakesPrefix(batches: seq<seq<Json>>)
    ensures var c := Consumer(batches);
      var k := |c.reports|;
      && k <= |batches|
      && (forall j :: 0 <= j < k ==> batches[j] != [])
      && c.chats == Flatten(batches[..k])
      && (c.panicked <==> k < |batches|)
      && (c.panicked ==> batches[k] == [])
    decreases |batches|
  {
    if batches != [] {
      var n := |batches|;
      var init := batches[..n - 1];
      ConsumerTakesPrefix(init);
      var before := Consumer(init);
      var now := Consumer(batches);
      var k := |before.reports|;
      assert batches[..k] == init[..k];
      if before.panicked || batches[n - 1] == [] {
        assert now.chats == before.chats && now.reports == before.reports;
      } else {
        assert now == ConsumeBatch(before, batches[n - 1]);
        assert k == n - 1;
        assert batches[..n] == batches;
        assert batches[..n][..n - 1] == init;
        assert now.chats == before.chats + batches[n - 1];
      }
    }
  }

  /** All batches non-empty: the result is exactly their concatenation, one report each. */
  lemma AllBatchesTaken(batches: seq<seq<Json>>)
    requires forall j :: 0 <= j < |batches| ==> batches[j] != []
    ensures Consumer(batches) == Consumed(Flatten(batches), Consumer(batches).reports, false)
    ensures |Consumer(batches).reports| == |batches|
  {
    ConsumerTakesPrefix(batches);
    assert batches[..|batches|] == batches;
  }

  /**
    Progress: the j-th report is a printed line exactly when the last action of
    the j-th batch has a timestamp, and the count it prints is the length of
    the result once that batch is appended.
  */
  lemma {:induction false} ConsumerReports(batches: seq<seq<Json>>, j: nat)
    requires j < |Consumer(batches).reports|
    ensures j < |batches| && batches[j] != []
    ensures Consumer(batches).reports[j] == ReportOf(batches[j], |Flatten(batches[..j + 1])|)
    decreases |batches|
  {
    var n := |batches|;
    var init := batches[..n - 1];
    var before := Consumer(init);
    var now := Consumer(batches);
    ConsumerTakesPrefix(init);
    if before.panicked || batches[n - 1] == [] {
      assert now.reports == before.reports;
      ConsumerReports(init, j);
      assert batches[..j + 1] == init[..j + 1];
    } else {
      assert now == ConsumeBatch(before, batches[n - 1]);
      if j < |before.reports| {
        assert now.reports[j] == before.reports[j];
        ConsumerReports(init, j);
        assert batches[..j + 1] == init[..j + 1];
      } else {
        assert batches[..j + 1] == batches;
        assert before.chats == Flatten(init) by {
          assert init[..|before.reports|] == init;
        }
      }
    }
  }

  lemma {:induction false} FlattenPrefixGrows(batches: seq<seq<Json>>, i: nat, j: nat)
    requires i <= j <= |batches|
    ensures |Flatten(batches[..i])| <= |Flatten(batches[..j])|
    decreases j - i
  {
    if i < j {
      FlattenPrefixGrows(batches, i, j - 1);
      assert batches[..j][..j - 1] == batches[..j - 1];
    }
  }

  /** The counts on the progress lines strictly increase. */
  lemma ProgressCountsIncrease(batches: seq<seq<Json>>, i: nat, j: nat)
    requires i < j < |Consumer(batches).reports|
    requires Consumer(batches).reports[i].Printed? && Consumer(batches).reports[j].Printed?
    ensures Consumer(batches).reports[i].total < Consumer(batches).reports[j].total
  {
    ConsumerReports(batches, i);
    ConsumerReports(batches, j);
    FlattenPrefixGrows(batches, i + 1, j);
    assert batches[..j + 1][..j] == batches[..j];
  }

  /** The receiving loop is the loop resumed in its initial state. */
  lemma ConsumerStarts(batches: seq<seq<Json>>)
    ensures Consumer(batches) == ConsumeFrom(Consumed([], [], false), batches)
  {
    ConsumerResumes(batches, 0);
    assert batches[..0] == [] && batches[0..] == batches;
  }

  /** Once the receiver has panicked, later batches change nothing. */
  lemma ConsumerStopsAtPanic(batches: seq<seq<Json>>, k: nat)
    requires k <= |batches| && Consumer(batches[..k]).panicked
    ensures Consumer(batches) == Consumer(batches[..k])
  {
    ConsumerResumes(batches, k);
  }

  /** The receiving loop resumed in state `c` over the batches still to come. */
  function ConsumeFrom(c: Consumed, batches: seq<seq<Json>>): Consumed
    decreases |batches|
  {
    if batches == [] || c.panicked then c else ConsumeFrom(ConsumeBatch(c, batches[0]), batches[1..])
  }

  /** The receiver takes the oldest batch in the channel, then carries on with the others and those still to be sent. */
  lemma ReceiveOldest(c: Consumed, channel: seq<seq<Json>>, later: seq<seq<Json>>)
    requires channel != [] && !c.panicked
    ensures ConsumeFrom(c, channel + later) == ConsumeFrom(ConsumeBatch(c, channel[0]), channel[1..] + later)
  {
    assert (channel + later)[1..] == channel[1..] + later;
  }

  /** After any number of batches, the rest of the run is the loop resumed in the state reached. */
  lemma {:induction false} ConsumerResumes(batches: seq<seq<Json>>, k: nat)
    requires k <= |batches|
    ensures Consumer(batches) == ConsumeFrom(Consumer(batches[..k]), batches[k..])
    decreases |batches| - k
  {
    if k < |batches| {
      ConsumerResumes(batches, k + 1);
      assert batches[..k + 1][..k] == batches[..k];
      assert batches[k..][1..] == batches[k + 1..];
    } else {
      assert batches[..k] == batches;
    }
  }

  /** The unwrap that brings the run down. */
  datatype Panic =
    | DetailsUnwrap(error: VideoDetails.GetError) // `VideoDetails::get(video_id).unwrap()`
    | FetchUnwrap                                 // via the producer thread and `handle.join().unwrap()`
    | ArrayUnwrap                                 // likewise
    | LastUnwrap                                  // `actions.last().unwrap()` on an empty batch

  datatype Outcome = Completed | Panicked(cause: Panic) | FuelExhausted

  /** How a run ends, from what the producer and the receiver did. */
  function Verdict(t: Transcript, c: Consumed): (r: Outcome)
    ensures r == Completed <==> !c.panicked && t.end == StreamEnded
    ensures r == FuelExhausted <==> !c.panicked && t.end == FuelSpent
    ensures r == Panicked(LastUnwrap) <==> c.panicked
    ensures r == Panicked(FetchUnwrap) <==> !c.panicked && t.end == FetchPanicked
    ensures r == Panicked(ArrayUnwrap) <==> !c.panicked && t.end == ArrayPanicked
  {
    if c.panicked then Panicked(LastUnwrap)
    else match t.end
      case StreamEnded => Completed
      case FetchPanicked => Panicked(FetchUnwrap)
      case ArrayPanicked => Panicked(ArrayUnwrap)
      case FuelSpent => FuelExhausted
  }

  /**
    `fetch_all_live_chats`, with the video page and the server given and the
    producer bounded to `fuel` fetches. Returns how the run ended, the
    collected chat actions, the progress report of each batch and the number
    of fetches made.
  */
  method FetchAllLiveChats(videoId: string, html: string, server: Server, fuel: nat, consumerFirst: nat -> bool)
    returns (outcome: Outcome, result: seq<Json>, progress: seq<Report>, fetches: nat)
    ensures VideoDetails.Get(videoId, html).Err? ==>
      && outcome == Panicked(DetailsUnwrap(VideoDetails.Get(videoId, html).error))
      && result == [] && progress == [] && fetches == 0
    ensures VideoDetails.Get(videoId, html).Ok? ==>
      var details := VideoDetails.Get(videoId, html).value;
      var t := Producer(Fetcher(server, details.apiKey), details.continuation, fuel);
      var c := Consumer(t.sent);
      && outcome == Verdict(t, c)
      && result == c.chats
      && progress == c.reports
      && fetches <= |t.tokens|
      && (!c.panicked ==> fetches == |t.tokens|)
  {
    var got := VideoDetails.Get(videoId, html);
    if got.Err? {
      return Panicked(DetailsUnwrap(got.error)), [], [], 0;
    }
    outcome, result, progress, fetches := Replay(Fetcher(server, got.value.apiKey), got.value.continuation, fuel, consumerFirst);
  }

  /**
    The two threads of `fetch_all_live_chats` once the video details are
    known: the producer's `loop` and the receiving `for` loop, interleaved as
    `consumerFirst` chooses, over a FIFO channel.
  */
  method Replay(fetch: Fetch, initial: string, fuel: nat, consumerFirst: nat -> bool)
    returns (outcome: Outcome, result: seq<Json>, progress: seq<Report>, fetches: nat)
    ensures var t := Producer(fetch, initial, fuel);
      var c := Consumer(t.sent);
      && outcome == Verdict(t, c)
      && result == c.chats
      && progress == c.reports
      && fetches <= |t.tokens|
      && (!c.panicked ==> fetches == |t.tokens|)
  {
    ghost var t := Producer(fetch, initial, fuel);
    var continuation := initial;

    result, progress, fetches := [], [], 0;
    var channel: seq<seq<Json>> := [];
    var running, stopped := true, FuelSpent;
    var fuelLeft := fuel;
    var panicked := false;
    var step := 0;
    // what the producer has still to do
    ghost var rest := t;
    ConsumerStarts(t.sent);
    assert channel + rest.sent == t.sent;

    while !panicked && (running || channel != [])
      invariant |t.tokens| == fetches + |rest.tokens| && t.end == rest.end
      invariant running ==> rest == Producer(fetch, continuation, fuelLeft)
      invariant !running ==> rest == Transcript([], [], stopped)
      invariant Consumer(t.sent) == ConsumeFrom(Consumed(result, progress, panicked), channel + rest.sent)
      decreases if running then fuelLeft + 1 else 0, |channel|
    {
      if channel != [] && (!running || consumerFirst(step)) {
        // the receiving loop takes the oldest batch in the channel
        var actions := channel[0];
        ReceiveOldest(Consumed(result, progress, panicked), channel, rest.sent);
        channel := channel[1..];
        result, progress, panicked := Receive(result, progress, actions);
      } else if fuelLeft == 0 {
        running, stopped := false, FuelSpent;
        rest := Transcript([], [], stopped);
      } else {
        continuation, fuelLeft, channel, running, stopped, rest := ProduceOnce(fetch, continuation, fuelLeft, channel, rest);
        fetches := fetches + 1;
      }
      step := step + 1;
    }

    assert channel + rest.sent == [] || panicked;
    outcome := if panicked then Panicked(LastUnwrap)
      else match stopped
        case StreamEnded => Completed
        case FetchPanicked => Panicked(FetchUnwrap)
        case ArrayPanicked => Panicked(ArrayUnwrap)
        case FuelSpent => FuelExhausted;
  }

  /**
    One pass of the producer's `loop`: fetch the page for `continuation`, stop
    at the end of the stream or on a panic, otherwise move on to the next
    token and send the page's actions. `rest` is what the producer has still
    to do before the pass, `restAfter` after it; the batches in the channel
    followed by those still to be sent stay the same, in the same order.
  */
  method ProduceOnce(fetch: Fetch, continuation: string, fuel: nat, channel: seq<seq<Json>>, ghost rest: Transcript)
    returns (nextToken: string, fuelAfter: nat, channelAfter: seq<seq<Json>>, running: bool, stopped: ProducerEnd, ghost restAfter: Transcript)
    requires fuel > 0 && rest == Producer(fetch, continuation, fuel)
    ensures fuelAfter < fuel
    ensures |rest.tokens| == 1 + |restAfter.tokens| && rest.end == restAfter.end
    ensures channel + rest.sent == channelAfter + restAfter.sent
    ensures running ==> restAfter == Producer(fetch, nextToken, fuelAfter)
    ensures !running ==> restAfter == Transcript([], [], stopped)
  {
    var fetched := fetch(continuation);
    fuelAfter := fuel - 1;
    nextToken, channelAfter, running, stopped := continuation, channel, false, FuelSpent;
    if fetched.FetchError? {
      stopped := FetchPanicked;
    } else if fetched.page.None? {
      stopped := StreamEnded;
    } else {
      var (token, actions) := fetched.page.value;
      nextToken := token;
      if actions.Arr? {
        channelAfter := channel + [actions.items];
        running := true;
      } else {
        stopped := ArrayPanicked;
      }
    }
    if running {
      restAfter := Producer(fetch, nextToken, fuelAfter);
      ProducerSends(fetch, continuation, fuel, nextToken, channelAfter[|channelAfter| - 1]);
      assert channel + ([channelAfter[|channelAfter| - 1]] + restAfter.sent) == channelAfter + restAfter.sent;
    } else {
      restAfter := Transcript([], [], stopped);
      ProducerStops(fetch, continuation, fuel);
    }
  }

  /**
    One pass of `for mut actions in recv`: the progress line for the batch,
    then the batch appended to the result; or the panic of `last().unwrap()`
    when the batch is empty, which leaves the result as it was.
  */
  method Receive(result: seq<Json>, progress: seq<Report>, actions: seq<Json>)
    returns (newResult: seq<Json>, newProgress: seq<Report>, panicked: bool)
    ensures Consumed(newResult, newProgress, panicked) == ConsumeBatch(Consumed(result, progress, false), actions)
  {
    if actions == [] {
      return result, progress, true;
    }
    newProgress := progress + [ReportOf(actions, |result| + |actions|)];
    newResult := result + actions;
    panicked := false;
  }

  /**
    A replay whose K-th fetch is the first to end the stream, with every
    earlier page non-empty, completes after exactly K fetches with the K - 1
    batches concatenated in fetch order.
  */
  lemma ReplayOfChain(fetch: Fetch, tokens: seq<string>, batches: seq<seq<Json>>, fuel: nat)
    requires |tokens| == |batches| + 1 <= fuel
    requires forall i :: 0 <= i < |batches| ==>
      fetch(tokens[i]) == Fetched(Some((tokens[i + 1], Arr(batches[i]))))
    requires fetch(tokens[|batches|]) == Fetched(None)
    requires forall j :: 0 <= j < |batches| ==> batches[j] != []
    ensures var t := Producer(fetch, tokens[0], fuel);
      && |t.tokens| == |tokens|
      && Verdict(t, Consumer(t.sent)) == Completed
      && Consumer(t.sent).chats == Flatten(batches)
  {
    ProducerOfChain(fetch, tokens, batches, fuel);
    AllBatchesTaken(batches);
  }

  /** A server that answers a token's request with a page gives the producer that page, the padding removed from its token. */
  lemma ServedPage(server: Server, apiKey: string, token: string, next: string, actions: Json)
    requires server(BuildApiUrl(token, apiKey)) == Some(PageResponse(next + Padding, actions))
    requires NoPadding(next)
    ensures Fetcher(server, apiKey)(token) == Fetched(Some((next, actions)))
  {
    PageResponseRoundTrip(next + Padding, actions);
    StripTrailingPadding(next);
  }

  /** A server that answers a token's request with a last page ends the producer's stream there. */
  lemma ServedLastPage(server: Server, apiKey: string, token: string, actions: Json)
    requires server(BuildApiUrl(token, apiKey)) == Some(LastPageResponse(actions))
    ensures Fetcher(server, apiKey)(token) == Fetched(None)
  {
    LastPageEndsReplay(actions);
  }

  /** A three-page replay under key `K`: T0 answers 3 actions and T1, T1 answers 2 actions and T2, T2 answers 1 action and no token. */
  function ThreePageServer(): Server {
    url =>
      if url == BuildApiUrl("T0", "K") then Some(PageResponse("T1" + Padding, FirstBatch()))
      else if url == BuildApiUrl("T1", "K") then Some(PageResponse("T2" + Padding, SecondBatch()))
      else if url == BuildApiUrl("T2", "K") then Some(LastPageResponse(LastBatch()))
      else None
  }

  function FirstBatch(): Json {
    Arr([Str("a1"), Str("a2"), Str("a3")])
  }

  function SecondBatch(): Json {
    Arr([Str("b1"), Str("b2")])
  }

  function LastBatch(): Json {
    Arr([Str("c1")])
  }

  /** The requests for the three tokens are three different URLs. */
  lemma ThreePageUrls()
    ensures BuildApiUrl("T0", "K") != BuildApiUrl("T1", "K")
    ensures BuildApiUrl("T0", "K") != BuildApiUrl("T2", "K")
    ensures BuildApiUrl("T1", "K") != BuildApiUrl("T2", "K")
  {
    ApiUrlDeterminesToken("T0", "T1", "K");
    ApiUrlDeterminesToken("T0", "T2", "K");
    ApiUrlDeterminesToken("T1", "T2", "K");
    assert "T0" != "T1" && "T0" != "T2" && "T1" != "T2" by {
      assert "T0"[1] != "T1"[1] && "T0"[1] != "T2"[1] && "T1"[1] != "T2"[1];
    }
  }

  /** What the producer gets for each of the three tokens. */
  lemma ThreePageFetches()
    ensures Fetcher(ThreePageServer(), "K")("T0") == Fetched(Some(("T1", FirstBatch())))
    ensures Fetcher(ThreePageServer(), "K")("T1") == Fetched(Some(("T2", SecondBatch())))
    ensures Fetcher(ThreePageServer(), "K")("T2") == Fetched(None)
  {
    ThreePageUrls();
    var server := ThreePageServer();
    assert NoPadding("T1") && NoPadding("T2");
    ServedPage(server, "K", "T0", "T1", FirstBatch());
    ServedPage(server, "K", "T1", "T2", SecondBatch());
    ServedLastPage(server, "K", "T2", LastBatch());
  }

  /**
    The three-page replay makes three fetches, with the padding removed from
    each returned token, and completes with the five actions of the first two
    pages: the action on the last page is not collected.
  */
  lemma ThreePageReplay()
    ensures var t := Producer(Fetcher(ThreePageServer(), "K"), "T0", 10);
      && t.tokens == ["T0", "T1", "T2"]
      && Verdict(t, Consumer(t.sent)) == Completed
      && Consumer(t.sent).chats == [Str("a1"), Str("a2"), Str("a3"), Str("b1"), Str("b2")]
  {
    ThreePageFetches();
    ThreePageChain(Fetcher(ThreePageServer(), "K"));
  }

  lemma ThreePageChain(fetch: Fetch)
    requires fetch("T0") == Fetched(Some(("T1", FirstBatch())))
    requires fetch("T1") == Fetched(Some(("T2", SecondBatch())))
    requires fetch("T2") == Fetched(None)
    ensures var t := Producer(fetch, "T0", 10);
      && t.tokens == ["T0", "T1", "T2"]
      && Verdict(t, Consumer(t.sent)) == Completed
      && Consumer(t.sent).chats == [Str("a1"), Str("a2"), Str("a3"), Str("b1"), Str("b2")]
  {
    var tokens := ["T0", "T1", "T2"];
    var batches := [FirstBatch().items, SecondBatch().items];
    ReplayOfChain(fetch, tokens, batches, 10);
    ProducerOfChain(fetch, tokens, batches, 10);
    assert Flatten(batches) == Flatten(batches[..1]) + batches[1];
    assert batches[..1][..0] == [];
  }
}
