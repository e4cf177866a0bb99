/**
 * Bot registration and the producer entry points (config.go): a process-wide
 * registry from alias to bot, the validation done at registration, and the
 * construction of the envelopes that producers push to the default bot's store.
 */
module Config {

  import opened Wrappers
  import opened Errors
  import opened MessageStore
  import opened BotClient
  import opened MessageQueue

  const DefaultAlias := "default"

  /** `Config`: `msgStore` is null when the caller gave no store. */
  datatype Config = Config(alias: string, token: string, webhook: string, msgStore: MessageStore?)

  /**
   * A registered bot: its API client (absent when setting the webhook failed),
   * the store its queue drains and the worker pool size.
   */
  datatype Bot = Bot(client: Option<BotClient>, store: MessageStore, size: int)

  /** `NewError(InvalidConfig)`: the error a refused registration returns. */
  function InvalidConfigError(): (e: Error)
    ensures e.code == InvalidConfig && e.msg == "Invalid bot config"
  {
    NewError(InvalidConfig, [])
  }

  /** A text envelope as a producer creates it: first attempt, default interval, due from `now`. */
  function TextEnvelope(chatId: int, messageId: int, message: string, now: int): (e: Envelope)
    ensures e.kind == MessageTypeText && e.retryCount == 0 && e.retryInterval == RetryInterval
    ensures e.nextTime == now && e.callbackRaw == ""
    ensures e.chatId == chatId && e.messageId == messageId && e.message == message
    ensures e.imgUrl == "" && e.caption == ""
  {
    Envelope(chatId, messageId, message, MessageTypeText, "", "", 0, "", RetryInterval, now)
  }

  /** A photo envelope as a producer creates it. */
  function PhotoEnvelope(chatId: int, messageId: int, imgUrl: string, caption: string, now: int): (e: Envelope)
    ensures e.kind == MessageTypePhoto && e.retryCount == 0 && e.retryInterval == RetryInterval
    ensures e.nextTime == now && e.callbackRaw == ""
    ensures e.chatId == chatId && e.messageId == messageId && e.imgUrl == imgUrl && e.caption == caption
    ensures e.message == ""
  {
    Envelope(chatId, messageId, "", MessageTypePhoto, imgUrl, caption, 0, "", RetryInterval, now)
  }

  /** `bytes, _ := json.Marshal(msg); string(bytes)`: the empty string when encoding fails. */
  function Serialized(codec: Codec, e: Envelope): (s: string)
    ensures codec.Lawful() && codec.encode(e).Some? ==> codec.decode(s) == Some(e.(callbackRaw := ""))
    ensures codec.encode(e).None? ==> s == ""
  {
    match codec.encode(e)
    case Some(s) => s
    case None => ""
  }

  /** `PushMessage`: the string goes to the tail of the bot's store unchanged. */
  method PushMessage(bot: Bot, message: string) returns (err: Option<StoreError>)
    modifies bot.store
    ensures (err, bot.store.State()) == PushStep(old(bot.store.State()), message)
    ensures !old(bot.store.closed) ==> err == None && bot.store.items == old(bot.store.items) + [message]
  {
    err := bot.store.RPush(message);
  }

  /** The process-wide `botCache`. */
  class Registry {
    var bots: map<string, Bot>

    constructor ()
      ensures bots == map[]
    {
      bots := map[];
    }

    /**
     * `RegisterBot`: a config without a token or without a store is refused;
     * otherwise the alias is bound to a new bot, replacing any earlier one.
     * Registration succeeds even when the webhook cannot be set; the bot then
     * has no client.
     */
    method RegisterBot(config: Config, doRequest: Transport) returns (err: Option<Error>)
      modifies this
      ensures config.token == "" || config.msgStore == null ==>
                err == Some(InvalidConfigError()) && bots == old(bots)
      ensures config.token != "" && config.msgStore != null ==>
                && err == None
                && bots == old(bots)[config.alias := Bot(NewBotClient(config.token, config.webhook, doRequest), config.msgStore, PoolSize)]
                && (config.webhook == "" ==> bots[config.alias].client.Some?)
      ensures forall a :: a in old(bots) && a != config.alias ==> a in bots && bots[a] == old(bots)[a]
    {
      if config.token == "" || config.msgStore == null {
        return Some(InvalidConfigError());
      }
      var client := NewBotClient(config.token, config.webhook, doRequest);
      bots := bots[config.alias := Bot(client, config.msgStore, PoolSize)];
      err := None;
    }

    /** `newBotUsing`: the bot registered under `alias`, or nil. */
    function NewBotUsing(alias: string): (r: Option<Bot>)
      reads this
      ensures r.Some? <==> alias in bots
      ensures r.Some? ==> r.value == bots[alias]
    {
      if alias in bots then Some(bots[alias]) else None
    }

    /** `newBot`: the bot registered under "default". */
    function NewBot(): (r: Option<Bot>)
      reads this
      ensures r.Some? <==> DefaultAlias in bots
      ensures r.Some? ==> r.value == bots[DefaultAlias]
    {
      NewBotUsing(DefaultAlias)
    }

    /** `PushTextMessage`: one serialized text envelope goes to the default bot's store. */
    method PushTextMessage(codec: Codec, chatId: int, messageId: int, message: string, now: int)
      returns (err: Option<StoreError>)
      requires DefaultAlias in bots
      modifies bots[DefaultAlias].store
      ensures (err, bots[DefaultAlias].store.State())
              == PushStep(old(bots[DefaultAlias].store.State()), Serialized(codec, TextEnvelope(chatId, messageId, message, now)))
    {
      var bot := NewBot().value;
      err := PushMessage(bot, Serialized(codec, TextEnvelope(chatId, messageId, message, now)));
    }

    /** `PushPhotoMessage`: one serialized photo envelope goes to the default bot's store. */
    method PushPhotoMessage(codec: Codec, chatId: int, messageId: int, imgUrl: string, caption: string, now: int)
      returns (err: Option<StoreError>)
      requires DefaultAlias in bots
      modifies bots[DefaultAlias].store
      ensures (err, bots[DefaultAlias].store.State())
              == PushStep(old(bots[DefaultAlias].store.State()), Serialized(codec, PhotoEnvelope(chatId, messageId, imgUrl, caption, now)))
    {
      var bot := NewBot().value;
      err := PushMessage(bot, Serialized(codec, PhotoEnvelope(chatId, messageId, imgUrl, caption, now)));
    }
  }

  /**
   * What a producer pushes is what the dispatch loop reads back: the decoded
   * entry is the envelope that was built, with no retries made, and it is not
   * due at the instant it was pushed.
   */
  lemma PushedEnvelopeReadsBack(codec: Codec, e: Envelope, now: int)
    requires codec.Lawful()
    requires e == TextEnvelope(e.chatId, e.messageId, e.message, now)
          || e == PhotoEnvelope(e.chatId, e.messageId, e.imgUrl, e.caption, now)
    requires codec.encode(e).Some?
    ensures codec.decode(Serialized(codec, e)) == Some(e)
    ensures e.retryCount == 0 && !IsReady(e, now)
  {
  }
}
