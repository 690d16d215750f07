/** The polling loop of `stream_messages`. The service owns the
    continuation-token cell; each cycle reads it, fetches one batch with it,
    yields the batch's messages, stores the next token and sleeps. What the
    loop does to the outside world is recorded, in order, as a trace of
    events. */
module ChatService {
  import opened Wrappers
  import opened Json
  import opened Numeric
  import opened ChatModel
  import opened ChatRepository

  /** An item of the stream: the loop only ever yields `Ok`. */
  type StreamItem = Result<ChatMessage, string>

  datatype Event =
    | Fetch(token: string)
    | Yield(item: StreamItem)
    | Store(token: string)
    | Sleep(millis: nat)
    | Ended(reason: string)

  const MaxSleepMillis: nat := 2000
  const MissingToken: string := "Continuation token is missing. Exiting the loop."
  const FetchFailedPrefix: string := "Error fetching chat messages: "

  /** `timeout.min(2000)` */
  function SleepMillis(timeout: UInt64): (ms: nat)
    ensures ms <= MaxSleepMillis
    ensures ms <= timeout && (ms == timeout || ms == MaxSleepMillis)
  {
    if timeout < MaxSleepMillis then timeout else MaxSleepMillis
  }

  function OkItems(messages: seq<ChatMessage>): (items: seq<StreamItem>)
    ensures |items| == |messages|
  {
    if |messages| == 0 then [] else OkItems(messages[..|messages| - 1]) + [Ok(messages[|messages| - 1])]
  }

  function YieldEvents(items: seq<StreamItem>): (events: seq<Event>)
    ensures |events| == |items|
  {
    if |items| == 0 then [] else YieldEvents(items[..|items| - 1]) + [Yield(items[|items| - 1])]
  }

  lemma {:induction false} OkItemsAt(messages: seq<ChatMessage>, i: nat)
    requires i < |messages|
    ensures OkItems(messages)[i] == Ok(messages[i])
  {
    if i < |messages| - 1 {
      OkItemsAt(messages[..|messages| - 1], i);
    }
  }

  lemma {:induction false} YieldEventsAt(items: seq<StreamItem>, i: nat)
    requires i < |items|
    ensures YieldEvents(items)[i] == Yield(items[i])
  {
    if i < |items| - 1 {
      YieldEventsAt(items[..|items| - 1], i);
    }
  }

  /** The events a batch produces are its messages, each wrapped in `Ok`,
      in the order the response listed them. */
  lemma YieldedInOrder(messages: seq<ChatMessage>)
    ensures forall j :: 0 <= j < |messages| ==> YieldEvents(OkItems(messages))[j] == Yield(Ok(messages[j]))
  {
    forall j | 0 <= j < |messages|
      ensures YieldEvents(OkItems(messages))[j] == Yield(Ok(messages[j]))
    {
      YieldEventsAt(OkItems(messages), j);
      OkItemsAt(messages, j);
    }
  }

  /** The state of the loop: the token cell, whether the loop has broken
      out, and everything it has done so far. */
  datatype LoopState = LoopState(continuation: Option<string>, ended: bool, trace: seq<Event>)

  /** One turn of the `loop`, with `fetch` standing for `get_chat_messages`
      called with the service's API key and client version. */
  function Step(s: LoopState, fetch: string -> Result<Batch, string>): (s': LoopState)
    ensures |s.trace| <= |s'.trace| && s'.trace[..|s.trace|] == s.trace
    ensures s.ended ==> s' == s
    ensures !s.ended ==> s'.ended == (s.continuation.None? || fetch(s.continuation.value).Err?)
  {
    if s.ended then s
    else match s.continuation
      case None => LoopState(None, true, s.trace + [Ended(MissingToken)])
      case Some(token) =>
        match fetch(token)
        case Err(e) => LoopState(s.continuation, true, s.trace + [Fetch(token), Ended(FetchFailedPrefix + e)])
        case Ok(batch) =>
          LoopState(Some(batch.continuation), false,
                    s.trace + [Fetch(token)] + YieldEvents(OkItems(batch.messages))
                    + [Store(batch.continuation), Sleep(SleepMillis(batch.timeout))])
  }

  /** What one turn of the loop yields. */
  function StepYield(s: LoopState, fetch: string -> Result<Batch, string>): (items: seq<StreamItem>)
    ensures forall i :: 0 <= i < |items| ==> items[i].Ok?
    ensures items != [] ==> !s.ended && s.continuation.Some? && fetch(s.continuation.value).Ok?
  {
    if s.ended || s.continuation.None? then []
    else match fetch(s.continuation.value)
      case Err(_) => []
      case Ok(batch) =>
        YieldedInOrder(batch.messages);
        OkItemsOk(batch.messages);
        OkItems(batch.messages)
  }

  lemma OkItemsOk(messages: seq<ChatMessage>)
    ensures forall i :: 0 <= i < |messages| ==> OkItems(messages)[i].Ok?
  {
    forall i | 0 <= i < |messages| ensures OkItems(messages)[i].Ok? {
      OkItemsAt(messages, i);
    }
  }

  /** The items a trace has yielded to the consumer, in order. */
  function Yielded(trace: seq<Event>): seq<StreamItem>
  {
    if |trace| == 0 then []
    else Yielded(trace[..|trace| - 1]) + (if trace[|trace| - 1].Yield? then [trace[|trace| - 1].item] else [])
  }

  lemma {:induction false} YieldedAppend(a: seq<Event>, b: seq<Event>)
    ensures Yielded(a + b) == Yielded(a) + Yielded(b)
    decreases |b|
  {
    if |b| == 0 {
      assert a + b == a;
    } else {
      assert (a + b)[..|a + b| - 1] == a + b[..|b| - 1];
      YieldedAppend(a, b[..|b| - 1]);
    }
  }

  /** The yield events of a batch hand over exactly its items. */
  lemma {:induction false} YieldedOfYieldEvents(items: seq<StreamItem>)
    ensures Yielded(YieldEvents(items)) == items
  {
    if |items| > 0 {
      var n := |items| - 1;
      YieldedOfYieldEvents(items[..n]);
      YieldedAppend(YieldEvents(items[..n]), [Yield(items[n])]);
      assert [Yield(items[n])][..0] == [];
      assert items[..n] + [items[n]] == items;
    }
  }

  /** Events other than yields add nothing to what a trace has yielded. */
  lemma {:induction false} QuietEvents(trace: seq<Event>, more: seq<Event>)
    requires forall i :: 0 <= i < |more| ==> !more[i].Yield?
    ensures Yielded(trace + more) == Yielded(trace)
    decreases |more|
  {
    if |more| == 0 {
      assert trace + more == trace;
    } else {
      assert (trace + more)[..|trace + more| - 1] == trace + more[..|more| - 1];
      QuietEvents(trace, more[..|more| - 1]);
    }
  }

  /** A successful turn yields the batch's items and nothing else. */
  lemma FetchedTurnYields(trace: seq<Event>, token: string, batch: Batch)
    ensures Yielded(trace + [Fetch(token)] + YieldEvents(OkItems(batch.messages))
                    + [Store(batch.continuation), Sleep(SleepMillis(batch.timeout))])
            == Yielded(trace) + OkItems(batch.messages)
  {
    var events := YieldEvents(OkItems(batch.messages));
    QuietEvents(trace, [Fetch(token)]);
    YieldedAppend(trace + [Fetch(token)], events);
    YieldedOfYieldEvents(OkItems(batch.messages));
    QuietEvents(trace + [Fetch(token)] + events, [Store(batch.continuation), Sleep(SleepMillis(batch.timeout))]);
  }

  /** What a turn appends to the trace yields exactly what the turn hands
      to the consumer. */
  lemma StepYieldsInTrace(s: LoopState, fetch: string -> Result<Batch, string>)
    ensures Yielded(Step(s, fetch).trace) == Yielded(s.trace) + StepYield(s, fetch)
  {
    if !s.ended {
      match s.continuation
      case None =>
        QuietEvents(s.trace, [Ended(MissingToken)]);
      case Some(token) =>
        match fetch(token)
        case Err(e) =>
          QuietEvents(s.trace, [Fetch(token), Ended(FetchFailedPrefix + e)]);
        case Ok(batch) =>
          FetchedTurnYields(s.trace, token, batch);
    }
  }

  /** The token the loop holds after `trace`: the last one stored, or the
      seed when none has been stored yet. */
  function LastStored(trace: seq<Event>, seed: string): string
  {
    if |trace| == 0 then seed
    else if trace[|trace| - 1].Store? then trace[|trace| - 1].token
    else LastStored(trace[..|trace| - 1], seed)
  }

  /** Every fetch sent the token held at that point. */
  predicate FetchesUseStoredToken(trace: seq<Event>, seed: string)
  {
    forall i :: 0 <= i < |trace| && trace[i].Fetch? ==> trace[i].token == LastStored(trace[..i], seed)
  }

  /** The recorded sleeps are capped, only `Ok` items are yielded, and
      nothing follows the end of the stream. */
  predicate WellBehaved(trace: seq<Event>)
  {
    && (forall i :: 0 <= i < |trace| && trace[i].Sleep? ==> trace[i].millis <= MaxSleepMillis)
    && (forall i :: 0 <= i < |trace| && trace[i].Yield? ==> trace[i].item.Ok?)
    && (forall i :: 0 <= i < |trace| && trace[i].Ended? ==> i == |trace| - 1)
  }

  /** The loop's invariant for a service seeded with `seed`: the cell holds
      the last stored token (never `None`), every fetch used the token held
      at the time, and `ended` says whether the trace has ended. */
  predicate ValidState(s: LoopState, seed: string)
  {
    && s.continuation == Some(LastStored(s.trace, seed))
    && FetchesUseStoredToken(s.trace, seed)
    && WellBehaved(s.trace)
    && (s.ended <==> (|s.trace| > 0 && s.trace[|s.trace| - 1].Ended?))
  }

  lemma {:induction false} LastStoredAppend(trace: seq<Event>, more: seq<Event>, seed: string)
    requires forall i :: 0 <= i < |more| ==> !more[i].Store?
    ensures LastStored(trace + more, seed) == LastStored(trace, seed)
  {
    if |more| > 0 {
      assert (trace + more)[..|trace + more| - 1] == trace + more[..|more| - 1];
      LastStoredAppend(trace, more[..|more| - 1], seed);
    } else {
      assert trace + more == trace;
    }
  }

  /** The events of one turn that fetched with `token`: that fetch first
      and no other, capped sleeps, only `Ok` items, and an end only last. */
  predicate TurnEvents(more: seq<Event>, token: string)
  {
    && |more| > 0 && more[0] == Fetch(token)
    && (forall j :: 1 <= j < |more| ==> !more[j].Fetch?)
    && WellBehaved(more)
  }

  /** Appending the events of one turn, which starts by fetching with the
      token held so far and fetches nothing else, keeps a trace well
      behaved and keeps every fetch on the stored token. */
  lemma ExtendTrace(before: seq<Event>, more: seq<Event>, seed: string, token: string)
    requires FetchesUseStoredToken(before, seed) && WellBehaved(before)
    requires |before| > 0 ==> !before[|before| - 1].Ended?
    requires TurnEvents(more, token) && token == LastStored(before, seed)
    ensures FetchesUseStoredToken(before + more, seed)
    ensures WellBehaved(before + more)
  {
    var all := before + more;
    assert forall i :: 0 <= i < |before| ==> !before[i].Ended?;
    forall i | 0 <= i < |all| && all[i].Fetch?
      ensures all[i].token == LastStored(all[..i], seed)
    {
      if i < |before| {
        assert all[..i] == before[..i];
      } else {
        assert all[..i] == before;
      }
    }
    forall i | 0 <= i < |all| && all[i].Ended?
      ensures i == |all| - 1
    {
      if |before| <= i {
        assert more[i - |before|].Ended?;
      }
    }
  }

  /** A turn of the loop keeps its invariant: in particular the `None`
      branch of `stream_messages` is never taken once the cell is seeded. */
  lemma StepKeepsValid(s: LoopState, seed: string, fetch: string -> Result<Batch, string>)
    requires ValidState(s, seed)
    ensures ValidState(Step(s, fetch), seed)
  {
    if !s.ended {
      var token := s.continuation.value;
      match fetch(token)
      case Err(e) => FailedTurnKeepsValid(s.trace, seed, token, e);
      case Ok(batch) => FetchedTurnKeepsValid(s.trace, seed, token, batch);
    }
  }

  /** A turn whose fetch fails ends the trace and keeps the invariant. */
  lemma FailedTurnKeepsValid(trace: seq<Event>, seed: string, token: string, e: string)
    requires ValidState(LoopState(Some(token), false, trace), seed)
    ensures ValidState(LoopState(Some(token), true, trace + [Fetch(token), Ended(FetchFailedPrefix + e)]), seed)
  {
    var more := [Fetch(token), Ended(FetchFailedPrefix + e)];
    assert TurnEvents(more, token);
    ExtendTrace(trace, more, seed, token);
    LastStoredAppend(trace, more, seed);
  }

  /** A turn whose fetch succeeds stores the new token and keeps the
      invariant. */
  lemma FetchedTurnKeepsValid(trace: seq<Event>, seed: string, token: string, batch: Batch)
    requires ValidState(LoopState(Some(token), false, trace), seed)
    ensures ValidState(LoopState(Some(batch.continuation), false,
                                 trace + [Fetch(token)] + YieldEvents(OkItems(batch.messages))
                                 + [Store(batch.continuation), Sleep(SleepMillis(batch.timeout))]), seed)
  {
    var yielded := YieldEvents(OkItems(batch.messages));
    var stored := trace + [Fetch(token)] + yielded + [Store(batch.continuation)];
    var more := [Fetch(token)] + yielded + [Store(batch.continuation), Sleep(SleepMillis(batch.timeout))];
    FetchedTurnEvents(token, batch);
    ExtendTrace(trace, more, seed, token);
    var all := trace + [Fetch(token)] + yielded + [Store(batch.continuation), Sleep(SleepMillis(batch.timeout))];
    assert all == trace + more;
    assert all[..|all| - 1] == stored;
  }

  lemma FetchedTurnEvents(token: string, batch: Batch)
    ensures TurnEvents([Fetch(token)] + YieldEvents(OkItems(batch.messages))
                       + [Store(batch.continuation), Sleep(SleepMillis(batch.timeout))], token)
  {
    YieldedInOrder(batch.messages);
  }

  /** Once the loop has ended, further turns change nothing and yield nothing. */
  lemma {:induction false} EndedIsFinal(s: LoopState, fetch: string -> Result<Batch, string>, n: nat)
    requires s.ended
    ensures Steps(s, fetch, n) == s
  {
    if n > 0 {
      EndedIsFinal(s, fetch, n - 1);
    }
  }

  /** `n` turns of the loop. */
  function Steps(s: LoopState, fetch: string -> Result<Batch, string>, n: nat): LoopState
  {
    if n == 0 then s else Step(Steps(s, fetch, n - 1), fetch)
  }

  /** What `n` turns of the loop hand to the consumer, turn by turn. */
  function StepsYield(s: LoopState, fetch: string -> Result<Batch, string>, n: nat): seq<StreamItem>
  {
    if n == 0 then [] else StepsYield(s, fetch, n - 1) + StepYield(Steps(s, fetch, n - 1), fetch)
  }

  /** Over any number of turns, the trace records as yields exactly the
      items handed to the consumer, in the same order. */
  lemma {:induction false} StepsYieldInTrace(s: LoopState, fetch: string -> Result<Batch, string>, n: nat)
    ensures Yielded(Steps(s, fetch, n).trace) == Yielded(s.trace) + StepsYield(s, fetch, n)
  {
    if n == 0 {
      NoStepsYieldNothing(s, fetch);
    } else {
      StepsYieldInTrace(s, fetch, n - 1);
      NextStepYieldInTrace(s, fetch, n);
    }
  }

  lemma NoStepsYieldNothing(s: LoopState, fetch: string -> Result<Batch, string>)
    ensures Yielded(Steps(s, fetch, 0).trace) == Yielded(s.trace) + StepsYield(s, fetch, 0)
  {
    assert Yielded(s.trace) + [] == Yielded(s.trace);
  }

  lemma NextStepYieldInTrace(s: LoopState, fetch: string -> Result<Batch, string>, n: nat)
    requires n > 0
    requires Yielded(Steps(s, fetch, n - 1).trace) == Yielded(s.trace) + StepsYield(s, fetch, n - 1)
    ensures Yielded(Steps(s, fetch, n).trace) == Yielded(s.trace) + StepsYield(s, fetch, n)
  {
    var prev := Steps(s, fetch, n - 1);
    StepYieldsInTrace(prev, fetch);
    YieldsChain(s.trace, prev.trace, Step(prev, fetch).trace, StepsYield(s, fetch, n - 1), StepYield(prev, fetch));
  }

  lemma YieldsChain(first: seq<Event>, middle: seq<Event>, last: seq<Event>, a: seq<StreamItem>, b: seq<StreamItem>)
    requires Yielded(middle) == Yielded(first) + a
    requires Yielded(last) == Yielded(middle) + b
    ensures Yielded(last) == Yielded(first) + (a + b)
  {
  }

  lemma {:induction false} StepsKeepValid(s: LoopState, seed: string, fetch: string -> Result<Batch, string>, n: nat)
    requires ValidState(s, seed)
    ensures ValidState(Steps(s, fetch, n), seed)
  {
    if n > 0 {
      StepsKeepValid(s, seed, fetch, n - 1);
      StepKeepsValid(Steps(s, fetch, n - 1), seed, fetch);
    }
  }

  class ChatService {
    /** The token cell; `new` seeds it and each successful turn replaces it. */
    var continuation: Option<string>
    const apiKey: string
    const clientVersion: string
    /** The token the service was constructed with. */
    const seed: string
    /** Set once the loop has broken out; the stream then yields nothing more. */
    var ended: bool
    var trace: seq<Event>

    function State(): LoopState
      reads this
    {
      LoopState(continuation, ended, trace)
    }

    ghost predicate Valid()
      reads this
    {
      ValidState(State(), seed)
    }

    /** `get_chat_messages` as this service calls it. */
    function Fetcher(post: Request -> Option<Json>, parseF64: string -> Option<real>): string -> Result<Batch, string>
    {
      token => FetchChatMessages(post, token, apiKey, clientVersion, parseF64)
    }

    /** `new` after a successful bootstrap: the cell holds `Some`. */
    constructor (continuation: string, apiKey: string, clientVersion: string)
      ensures Valid()
      ensures this.continuation == Some(continuation) && !ended && trace == []
      ensures this.apiKey == apiKey && this.clientVersion == clientVersion
    {
      this.continuation := Some(continuation);
      this.apiKey := apiKey;
      this.clientVersion := clientVersion;
      this.seed := continuation;
      ended := false;
      trace := [];
    }

    /** One turn of the `loop` in `stream_messages`. */
    method Cycle(post: Request -> Option<Json>, parseF64: string -> Option<real>)
      returns (yielded: seq<StreamItem>)
      modifies this
      ensures State() == Step(old(State()), Fetcher(post, parseF64))
      ensures yielded == StepYield(old(State()), Fetcher(post, parseF64))
    {
      yielded := [];
      if ended {
        return;
      }
      match continuation {
        case None =>
          trace := trace + [Ended(MissingToken)];
          ended := true;
        case Some(token) =>
          var fetched, _ := GetChatMessages(post, token, apiKey, clientVersion, parseF64);
          match fetched {
            case Err(e) =>
              trace := trace + [Fetch(token), Ended(FetchFailedPrefix + e)];
              ended := true;
            case Ok(batch) =>
              var events;
              yielded, events := YieldBatch(batch.messages);
              continuation := Some(batch.continuation);
              trace := trace + [Fetch(token)] + events
                       + [Store(batch.continuation), Sleep(SleepMillis(batch.timeout))];
          }
      }
    }

    /** The `loop` itself, driven for `cycles` turns (the consumer pulls
        that many times); once the stream has ended further turns do nothing. */
    method StreamMessages(post: Request -> Option<Json>, parseF64: string -> Option<real>, cycles: nat)
      returns (items: seq<StreamItem>)
      modifies this
      ensures State() == Steps(old(State()), Fetcher(post, parseF64), cycles)
      ensures forall i :: 0 <= i < |items| ==> items[i].Ok?
      ensures items == StepsYield(old(State()), Fetcher(post, parseF64), cycles)
      ensures Yielded(trace) == Yielded(old(trace)) + items
      ensures old(Valid()) ==> Valid()
    {
      items := [];
      var n := 0;
      ghost var start := State();
      ghost var fetch := Fetcher(post, parseF64);
      while n < cycles
        invariant n <= cycles
        invariant State() == Steps(start, fetch, n)
        invariant forall i :: 0 <= i < |items| ==> items[i].Ok?
        invariant items == StepsYield(start, fetch, n)
      {
        var batch := Cycle(post, parseF64);
        items := items + batch;
        n := n + 1;
      }
      StepsYieldInTrace(start, fetch, cycles);
      if ValidState(start, seed) {
        StepsKeepValid(start, seed, fetch, cycles);
      }
    }
  }

  /** The `for message in messages { yield Ok(message) }` part of a turn. */
  method YieldBatch(messages: seq<ChatMessage>) returns (yielded: seq<StreamItem>, events: seq<Event>)
    ensures yielded == OkItems(messages)
    ensures events == YieldEvents(yielded)
  {
    yielded := [];
    events := [];
    var i := 0;
    while i < |messages|
      invariant 0 <= i <= |messages|
      invariant yielded == OkItems(messages[..i])
      invariant events == YieldEvents(yielded)
    {
      assert messages[..i + 1][..i] == messages[..i];
      yielded := yielded + [Ok(messages[i])];
      events := events + [Yield(Ok(messages[i]))];
      i := i + 1;
    }
    assert messages[..i] == messages;
  }
}
