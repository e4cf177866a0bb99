/**
 * The retry-aware outbound queue (MessageQueue.go). A dispatch loop pops
 * serialized envelopes from a store, drops empty or malformed entries, pushes
 * entries that are not yet due back to the tail unchanged, and hands due
 * entries to a worker. The worker makes one delivery attempt; after a failure
 * it either gives up (three retries already made) or schedules a retry, with a
 * quadratic back-off for the first two retries and a fixed two minutes for the
 * third, and pushes the re-serialized envelope to the tail.
 *
 * Time is a whole number of seconds; `now` is a parameter. JSON is the
 * abstract pair `Codec`.
 */
module MessageQueue {

  import opened Wrappers
  import opened Errors
  import opened MessageStore
  import opened BotClient

  const RetryMaxTimesCount := 3
  const RetryTimeLimitNum := 2
  /** The base retry interval, in seconds, stamped on every envelope handed to a worker. */
  const RetryInterval := 10
  /** `2 * time.Minute`, in seconds: the delay once the retry count reaches `RetryTimeLimitNum`. */
  const RetryLimitDelay := 120
  /** The number of worker slots in the pool. */
  const PoolSize := 10

  const MessageTypeText := "text"
  const MessageTypePhoto := "photo"

  /**
   * `telegramMessage`, with the optional reply target `messageId` (positive
   * means "reply to"). `callbackRaw` is the string the envelope was popped as;
   * it is never serialized.
   */
  datatype Envelope = Envelope(
    chatId: int,
    messageId: int,
    message: string,
    kind: string,
    imgUrl: string,
    caption: string,
    retryCount: int,
    callbackRaw: string,
    retryInterval: int,
    nextTime: int)

  /**
   * `json.Marshal` / `json.Unmarshal` on envelopes. Encoding can fail (a time
   * outside the years 0..9999 has no JSON form); decoding fails on malformed
   * input.
   */
  datatype Codec = Codec(encode: Envelope -> Option<string>, decode: string -> Option<Envelope>) {

    /**
     * The laws the JSON pair obeys: `callbackRaw` is not part of the encoding
     * and never filled in by decoding, and decoding an encoding gives back
     * every other field.
     */
    ghost predicate Lawful()
    {
      && (forall e :: encode(e) == encode(e.(callbackRaw := "")))
      && (forall e :: encode(e).Some? ==> decode(encode(e).value) == Some(e.(callbackRaw := "")))
      && (forall s :: decode(s).Some? ==> decode(s).value.callbackRaw == "")
    }
  }

  datatype RetryDecision = Drop | Delay(seconds: int)

  /** The retry rule applied after a failed attempt, to the count before it is incremented. */
  function RetryPolicy(count: int, interval: int): (d: RetryDecision)
    ensures d.Drop? <==> count >= RetryMaxTimesCount
  {
    if count >= RetryMaxTimesCount then Drop
    else if count >= RetryTimeLimitNum then Delay(RetryLimitDelay)
    else Delay((count + 1) * (count + 1) * interval)
  }

  /**
   * The delay for each retry count: quadratic in the count below the limit,
   * then a fixed two minutes whatever the interval; with the default interval
   * the first three retries wait 10, 40 and 120 seconds.
   */
  lemma RetryDelays(count: int, interval: int)
    ensures count == 0 ==> RetryPolicy(count, interval) == Delay(interval)
    ensures count == 1 ==> RetryPolicy(count, interval) == Delay(4 * interval)
    ensures count == 2 ==> RetryPolicy(count, interval) == Delay(RetryLimitDelay)
    ensures count >= 3 ==> RetryPolicy(count, interval) == Drop
    ensures RetryPolicy(0, RetryInterval) == Delay(10) && RetryPolicy(1, RetryInterval) == Delay(40)
  {
  }

  /**
   * The envelope after a failed attempt at time `now`: its next time and a
   * count one higher, or nothing when it is dropped.
   */
  function Rescheduled(cb: Envelope, now: int): (r: Option<Envelope>)
    ensures r.None? <==> cb.retryCount >= RetryMaxTimesCount
    ensures r.Some? ==> r.value == cb.(retryCount := cb.retryCount + 1, nextTime := r.value.nextTime)
    ensures r.Some? ==> r.value.retryCount <= RetryMaxTimesCount
    ensures r.Some? && cb.retryCount == RetryTimeLimitNum ==> r.value.nextTime == now + RetryLimitDelay
    ensures r.Some? && cb.retryCount < RetryTimeLimitNum ==>
              r.value.nextTime == now + (cb.retryCount + 1) * (cb.retryCount + 1) * cb.retryInterval
    ensures r.Some? && 0 <= cb.retryCount && 0 < cb.retryInterval ==> r.value.nextTime > now
  {
    match RetryPolicy(cb.retryCount, cb.retryInterval)
    case Drop => None
    case Delay(d) =>
      assert 0 <= cb.retryCount < RetryTimeLimitNum && 0 < cb.retryInterval ==> d > 0 by {
        if 0 <= cb.retryCount < RetryTimeLimitNum && 0 < cb.retryInterval {
          assert cb.retryCount == 0 || cb.retryCount == 1;
        }
      }
      Some(cb.(retryCount := cb.retryCount + 1, nextTime := now + d))
  }

  /**
   * `putRetryCache(cb, cb.CallbackRaw, true)`: the re-serialized envelope, or
   * the string it was popped as when re-serializing fails.
   */
  function RetryPayload(codec: Codec, cb: Envelope): (s: string)
    ensures codec.Lawful() && codec.encode(cb).Some? ==> codec.decode(s) == Some(cb.(callbackRaw := ""))
    ensures codec.encode(cb).None? ==> s == cb.callbackRaw
  {
    match codec.encode(cb)
    case Some(s) => s
    case None => cb.callbackRaw
  }

  /** `time.Now().After(cb.NextTime)`: due strictly after its next time, not at it. */
  predicate IsReady(cb: Envelope, now: int)
    ensures IsReady(cb, now) <==> now - cb.nextTime >= 1
  {
    now > cb.nextTime
  }

  /**
   * `sendMessage`: one delivery attempt through the default bot's client
   * (`None` when no default bot is registered).
   */
  function Deliver(cb: Envelope, client: Option<BotClient>, doRequest: Transport): (err: Option<Error>)
    ensures client.None? ==> err == Some(NewError(TelegramBotError, []))
    ensures client.Some? && cb.kind != MessageTypeText && cb.kind != MessageTypePhoto ==>
              err == Some(NewError(MessageTypeError, []))
    ensures err.None? <==>
              client.Some?
              && ((cb.kind == MessageTypeText
                   && doRequest(Endpoint(client.value, "sendMessage"), MessageParams(cb.chatId, cb.messageId, cb.message)) == Answered(true))
                  || (cb.kind == MessageTypePhoto
                   && doRequest(Endpoint(client.value, "sendPhoto"), PhotoParams(cb.chatId, cb.imgUrl, cb.caption)) == Answered(true)))
  {
    match client
    case None => Some(NewError(TelegramBotError, []))
    case Some(c) =>
      if cb.kind == MessageTypeText then SendMessage(c, doRequest, cb.chatId, cb.messageId, cb.message)
      else if cb.kind == MessageTypePhoto then SendPhoto(c, doRequest, cb.chatId, cb.imgUrl, cb.caption)
      else Some(NewError(MessageTypeError, []))
  }

  /** What one iteration of the dispatch loop did with the entry it popped. */
  datatype Step =
    | Blocked        // the store is open and empty: the pop waits
    | PopFailed      // the pop reported an error (the store is closed): sleep 3 s
    | EmptyEntry     // the popped string is empty: sleep 3 s
    | Malformed      // the popped string does not decode: dropped
    | Deferred       // not yet due: pushed back unchanged, sleep 1-3 s
    | HandedOff(cb: Envelope)  // due: given to a worker

  /** How one worker invocation ended. */
  datatype WorkOutcome = Sent | GaveUp | RetryScheduled

  class MessageQueue {
    const store: MessageStore
    const codec: Codec
    const size: int

    constructor (store: MessageStore, codec: Codec)
      ensures this.store == store && this.codec == codec && size == PoolSize
    {
      this.store := store;
      this.codec := codec;
      size := PoolSize;
    }

    /** One iteration of the loop in `Start`. */
    method DispatchStep(now: int) returns (step: Step)
      modifies store
      ensures store.closed == old(store.closed)
      ensures old(store.closed) ==> step == PopFailed && store.items == old(store.items)
      ensures !old(store.closed) && old(store.items) == [] ==> step == Blocked && store.items == []
      ensures !old(store.closed) && old(store.items) != [] ==>
        var raw, rest := old(store.items)[0], old(store.items)[1..];
        if raw == "" then step == EmptyEntry && store.items == rest
        else match codec.decode(raw)
          case None => step == Malformed && store.items == rest
          case Some(cb) =>
            if !IsReady(cb, now) then step == Deferred && store.items == rest + [raw]
            else step == HandedOff(cb.(callbackRaw := raw, retryInterval := RetryInterval)) && store.items == rest
      ensures step == Deferred ==> |store.items| == old(|store.items|) && store.items[|store.items| - 1] == old(store.items[0])
    {
      var popped := store.BLPop();
      match popped
      case PopClosed =>
        return PopFailed;
      case WouldBlock =>
        return Blocked;
      case Popped(jsonStr) =>
        if jsonStr == "" {
          return EmptyEntry;
        }
        var decoded := codec.decode(jsonStr);
        if decoded.None? {
          return Malformed;
        }
        var cb := decoded.value;
        if !IsReady(cb, now) {
          var _ := store.RPush(jsonStr);
          return Deferred;
        }
        step := HandedOff(cb.(callbackRaw := jsonStr, retryInterval := RetryInterval));
    }

    /** One invocation of the pool's worker function on an envelope handed off by `DispatchStep`. */
    method Work(cb: Envelope, client: Option<BotClient>, doRequest: Transport, now: int) returns (outcome: WorkOutcome)
      modifies store
      ensures Deliver(cb, client, doRequest).None? ==> outcome == Sent && store.State() == old(store.State())
      ensures Deliver(cb, client, doRequest).Some? && cb.retryCount >= RetryMaxTimesCount ==>
                outcome == GaveUp && store.State() == old(store.State())
      ensures Deliver(cb, client, doRequest).Some? && cb.retryCount < RetryMaxTimesCount ==>
                outcome == RetryScheduled
                && store.State() == PushStep(old(store.State()), RetryPayload(codec, Rescheduled(cb, now).value)).1
      ensures outcome == RetryScheduled && !old(store.closed) ==> |store.items| == old(|store.items|) + 1
    {
      if Deliver(cb, client, doRequest).None? {
        return Sent;
      }
      var next := Rescheduled(cb, now);
      if next.None? {
        return GaveUp;
      }
      var _ := store.RPush(RetryPayload(codec, next.value));
      outcome := RetryScheduled;
    }
  }

  /** The package-level queue that `NewMessageQueue` creates once (`qOnce`). */
  class QueueSingleton {
    var queue: MessageQueue?

    constructor ()
      ensures queue == null
    {
      queue := null;
    }

    /** The first call creates the queue on its store; every later call returns that same queue. */
    method NewMessageQueue(store: MessageStore, codec: Codec) returns (q: MessageQueue)
      modifies this
      ensures old(queue) != null ==> q == old(queue) && queue == old(queue)
      ensures old(queue) == null ==> fresh(q) && q.store == store && q.codec == codec && q.size == PoolSize && queue == q
    {
      if queue == null {
        queue := new MessageQueue(store, codec);
      }
      q := queue;
    }
  }

  /** The delays given when every attempt fails, from retry count `count` until the envelope is dropped. */
  function BackoffSchedule(count: int, interval: int): seq<int>
    decreases RetryMaxTimesCount - count
  {
    match RetryPolicy(count, interval)
    case Drop => []
    case Delay(d) => [d] + BackoffSchedule(count + 1, interval)
  }

  /**
   * An envelope whose every attempt fails is retried exactly
   * `RetryMaxTimesCount - count` more times before it is dropped, so its count
   * never passes `RetryMaxTimesCount`.
   */
  lemma {:induction false} BackoffScheduleLength(count: int, interval: int)
    requires count <= RetryMaxTimesCount
    ensures |BackoffSchedule(count, interval)| == RetryMaxTimesCount - count
    decreases RetryMaxTimesCount - count
  {
    if count < RetryMaxTimesCount {
      BackoffScheduleLength(count + 1, interval);
    }
  }

  /**
   * A freshly pushed envelope (count 0, default interval) is attempted at most
   * four times: the first attempt, then retries after 10, 40 and 120 seconds.
   */
  lemma FreshEnvelopeSchedule(interval: int)
    ensures BackoffSchedule(0, interval) == [interval, 4 * interval, RetryLimitDelay]
    ensures BackoffSchedule(0, RetryInterval) == [10, 40, 120]
  {
    assert BackoffSchedule(3, interval) == [];
    assert BackoffSchedule(2, interval) == [RetryLimitDelay];
    assert BackoffSchedule(1, interval) == [4 * interval, RetryLimitDelay];
  }

  /**
   * Rescheduling along the way: the envelope after `k` failed attempts (at
   * times `nows[0..k]`) has count `count + k` and is due `schedule[k-1]`
   * seconds after the last failure.
   */
  function AfterFailures(cb: Envelope, nows: seq<int>): Option<Envelope>
    decreases |nows|
  {
    if nows == [] then Some(cb)
    else match Rescheduled(cb, nows[0])
      case None => None
      case Some(next) => AfterFailures(next, nows[1..])
  }

  lemma {:induction false} AfterFailuresTracksSchedule(cb: Envelope, nows: seq<int>)
    requires |nows| > 0
    ensures AfterFailures(cb, nows).Some? <==> cb.retryCount + |nows| <= RetryMaxTimesCount
    ensures AfterFailures(cb, nows).Some? ==>
      var e := AfterFailures(cb, nows).value;
      && |nows| <= |BackoffSchedule(cb.retryCount, cb.retryInterval)|
      && e == cb.(retryCount := cb.retryCount + |nows|, nextTime := e.nextTime)
      && e.nextTime == nows[|nows| - 1] + BackoffSchedule(cb.retryCount, cb.retryInterval)[|nows| - 1]
    decreases |nows|
  {
    var count := cb.retryCount;
    if count < RetryMaxTimesCount {
      var next := Rescheduled(cb, nows[0]).value;
      BackoffScheduleLength(count, cb.retryInterval);
      if |nows| > 1 {
        AfterFailuresTracksSchedule(next, nows[1..]);
        BackoffScheduleLength(count + 1, cb.retryInterval);
        assert nows[1..][|nows[1..]| - 1] == nows[|nows| - 1];
      }
    }
  }

  /**
   * What a retry pushes, read back by the next dispatch: the re-serialized
   * envelope with its new count and next time, or, when re-serializing fails,
   * the entry exactly as it was popped, with its old count.
   */
  lemma RetryPayloadDecodes(codec: Codec, raw: string, now: int)
    requires codec.Lawful()
    requires codec.decode(raw).Some?
    requires codec.decode(raw).value.retryCount < RetryMaxTimesCount
    ensures var cb := codec.decode(raw).value.(callbackRaw := raw, retryInterval := RetryInterval);
            var next := Rescheduled(cb, now).value;
            codec.decode(RetryPayload(codec, next))
              == if codec.encode(next).Some? then Some(next.(callbackRaw := "")) else Some(codec.decode(raw).value)
  {
  }

  /**
   * An envelope is not due at the very instant of its next time, only
   * strictly later.
   */
  lemma NotDueAtItsOwnTime(cb: Envelope, now: int)
    ensures !IsReady(cb.(nextTime := now), now)
    ensures forall later :: later > now ==> IsReady(cb.(nextTime := now), later)
  {
  }

  /**
   * Every delivery of an envelope of an unsupported kind fails, so such an
   * envelope goes through every retry before it is dropped.
   */
  lemma UnsupportedKindAlwaysFails(cb: Envelope, client: Option<BotClient>, doRequest: Transport)
    requires cb.kind != MessageTypeText && cb.kind != MessageTypePhoto
    ensures Deliver(cb, client, doRequest).Some?
  {
  }
}
