/**
 * The Telegram Bot API client (bot_client.go): how each outbound call builds
 * its parameter map and judges the answer, the download URL of a file, and
 * how an inbound update or message is turned into a command and dispatched.
 *
 * The HTTP round trip (`doRequest`) is a parameter `Transport` from the
 * request URL and parameter map to the way the call ended.
 */
module BotClient {

  import opened Wrappers
  import opened Errors
  import opened Command

  const ApiRoot := "https://api.telegram.org/bot"
  const FileRoot := "https://api.telegram.org/file/bot"
  const DefaultPrefix := "/"

  /** A configured client: its token, the API base URL built from it, and the command prefix. */
  datatype BotClient = BotClient(token: string, baseURL: string, prefix: string)

  /** A value in a request's parameter map; `ReplyParameters(id)` is the object `{"message_id": id}`. */
  datatype Param = IntParam(i: int) | StrParam(s: string) | ReplyParameters(messageId: int)

  type Params = map<string, Param>

  /**
   * How one call to the Bot API ended: the request itself failed, the body was
   * not JSON, or the body was parsed and carried the given `ok` flag.
   */
  datatype Response = RequestFailed(err: Error) | Unparsable | Answered(ok: bool)

  /** `doRequest`: POSTs the parameters to the URL and reports how it ended. */
  type Transport = (string, Params) -> Response

  datatype File = File(fileId: string, filePath: string)

  datatype Update = Update(updateId: int, message: Option<Message>)

  /** The error a call reports for a response: nil only for an answer whose `ok` is true. */
  function CheckResponse(resp: Response): (err: Option<Error>)
    ensures err.None? <==> resp == Answered(true)
    ensures resp.RequestFailed? ==> err == Some(resp.err)
    ensures resp.Unparsable? ==> err == Some(NewError(ParseResponseError, []))
    ensures resp == Answered(false) ==> err == Some(NewError(TelegramApiError, []))
  {
    match resp
    case RequestFailed(e) => Some(e)
    case Unparsable => Some(NewError(ParseResponseError, []))
    case Answered(ok) => if ok then None else Some(NewError(TelegramApiError, []))
  }

  /** The URL of an API method: `<baseURL>/<api>`. */
  function Endpoint(c: BotClient, api: string): (url: string)
    ensures |url| == |c.baseURL| + 1 + |api|
    ensures url[..|c.baseURL|] == c.baseURL && url[|c.baseURL|] == '/' && url[|c.baseURL| + 1..] == api
  {
    c.baseURL + "/" + api
  }

  /** One API method call: POST to the method's URL, then judge the answer. */
  function Call(c: BotClient, doRequest: Transport, api: string, params: Params): Option<Error>
  {
    CheckResponse(doRequest(Endpoint(c, api), params))
  }

  /** `newBotClient`: token and "/" parser always; a webhook, when given, must be set successfully. */
  function NewBotClient(token: string, webhook: string, doRequest: Transport): (r: Option<BotClient>)
    ensures r.Some? ==> r.value == BotClient(token, ApiRoot + token, DefaultPrefix)
    ensures webhook == "" ==> r.Some?
    ensures webhook != "" ==> (r.Some? <==> doRequest(Endpoint(BotClient(token, ApiRoot + token, DefaultPrefix), "setWebhook"), map["url" := StrParam(webhook)]) == Answered(true))
  {
    var c := BotClient(token, ApiRoot + token, DefaultPrefix);
    if webhook == "" then Some(c)
    else if Call(c, doRequest, "setWebhook", map["url" := StrParam(webhook)]).None? then Some(c)
    else None
  }

  /** The parameters of `sendMessage`: a reply target only for a positive message id. */
  function MessageParams(chatId: int, messageId: int, text: string): (p: Params)
    ensures "chat_id" in p && p["chat_id"] == IntParam(chatId)
    ensures "text" in p && p["text"] == StrParam(text)
    ensures "reply_parameters" in p <==> messageId > 0
    ensures "reply_parameters" in p ==> p["reply_parameters"] == ReplyParameters(messageId)
    ensures p.Keys <= {"chat_id", "text", "reply_parameters"}
  {
    var params := map["chat_id" := IntParam(chatId), "text" := StrParam(text)];
    if messageId > 0 then params["reply_parameters" := ReplyParameters(messageId)] else params
  }

  /** The parameters of `replyMessage`: the reply target is always present. */
  function ReplyParams(chatId: int, messageId: int, text: string): (p: Params)
    ensures p.Keys == {"chat_id", "text", "reply_parameters"}
    ensures p["chat_id"] == IntParam(chatId) && p["text"] == StrParam(text)
    ensures p["reply_parameters"] == ReplyParameters(messageId)
  {
    map["chat_id" := IntParam(chatId), "text" := StrParam(text), "reply_parameters" := ReplyParameters(messageId)]
  }

  /** The parameters of `sendPhoto`: a caption only when it is non-empty. */
  function PhotoParams(chatId: int, photoUrl: string, caption: string): (p: Params)
    ensures "chat_id" in p && p["chat_id"] == IntParam(chatId)
    ensures "photo" in p && p["photo"] == StrParam(photoUrl)
    ensures "caption" in p <==> caption != ""
    ensures "caption" in p ==> p["caption"] == StrParam(caption)
    ensures p.Keys <= {"chat_id", "photo", "caption"}
  {
    var params := map["chat_id" := IntParam(chatId), "photo" := StrParam(photoUrl)];
    if caption != "" then params["caption" := StrParam(caption)] else params
  }

  /**
   * `sendMessage` and `replyMessage` send the same request for a positive
   * message id; otherwise `sendMessage` sends the reply request without its
   * reply target.
   */
  lemma SendAndReplyAgree(chatId: int, messageId: int, text: string)
    ensures messageId > 0 ==> MessageParams(chatId, messageId, text) == ReplyParams(chatId, messageId, text)
    ensures messageId <= 0 ==> MessageParams(chatId, messageId, text) == ReplyParams(chatId, messageId, text) - {"reply_parameters"}
  {
    var m, r := MessageParams(chatId, messageId, text), ReplyParams(chatId, messageId, text);
    if messageId > 0 {
      assert m.Keys == r.Keys;
    } else {
      assert m.Keys == (r - {"reply_parameters"}).Keys;
    }
  }

  function SendMessage(c: BotClient, doRequest: Transport, chatId: int, messageId: int, text: string): (err: Option<Error>)
    ensures err.None? <==> doRequest(Endpoint(c, "sendMessage"), MessageParams(chatId, messageId, text)) == Answered(true)
  {
    Call(c, doRequest, "sendMessage", MessageParams(chatId, messageId, text))
  }

  function ReplyMessage(c: BotClient, doRequest: Transport, chatId: int, messageId: int, text: string): (err: Option<Error>)
    ensures err.None? <==> doRequest(Endpoint(c, "sendMessage"), ReplyParams(chatId, messageId, text)) == Answered(true)
  {
    Call(c, doRequest, "sendMessage", ReplyParams(chatId, messageId, text))
  }

  function SendPhoto(c: BotClient, doRequest: Transport, chatId: int, photoUrl: string, caption: string): (err: Option<Error>)
    ensures err.None? <==> doRequest(Endpoint(c, "sendPhoto"), PhotoParams(chatId, photoUrl, caption)) == Answered(true)
  {
    Call(c, doRequest, "sendPhoto", PhotoParams(chatId, photoUrl, caption))
  }

  /** `getFileURL`: the download URL of a file. */
  function GetFileURL(c: BotClient, file: File): (url: string)
    ensures url == FileRoot + c.token + "/" + file.filePath
  {
    FileRoot + c.token + "/" + file.filePath
  }

  /** The position of the first '/' in `s`, or `|s|` when there is none. */
  function FirstSlash(s: string): (k: nat)
    ensures k <= |s|
  {
    if s == [] || s[0] == '/' then 0 else 1 + FirstSlash(s[1..])
  }

  lemma {:induction false} FirstSlashAfter(t: string, rest: string)
    requires '/' !in t
    ensures FirstSlash(t + "/" + rest) == |t|
    decreases |t|
  {
    if t != [] {
      assert (t + "/" + rest)[1..] == t[1..] + "/" + rest;
      FirstSlashAfter(t[1..], rest);
    }
  }

  /**
   * For tokens without '/', the download URL determines both the token and the
   * file path: distinct (token, path) pairs never share a URL.
   */
  lemma FileURLInjective(c1: BotClient, f1: File, c2: BotClient, f2: File)
    requires '/' !in c1.token && '/' !in c2.token
    requires GetFileURL(c1, f1) == GetFileURL(c2, f2)
    ensures c1.token == c2.token && f1.filePath == f2.filePath
  {
    var u, n := GetFileURL(c1, f1), |FileRoot|;
    var t1, t2 := c1.token, c2.token;
    var tail := u[n..];
    assert tail == t1 + "/" + f1.filePath == t2 + "/" + f2.filePath;
    FirstSlashAfter(t1, f1.filePath);
    FirstSlashAfter(t2, f2.filePath);
    assert t1 == tail[..|t1|] == t2;
    assert f1.filePath == tail[|t1| + 1..] == f2.filePath;
  }

  /** The text a message's command is read from: the text, or the caption when the text is empty. */
  function CommandText(m: Message): (t: string)
    ensures m.text != "" ==> t == m.text
    ensures m.text == "" ==> t == m.caption
  {
    if m.text == "" then m.caption else m.text
  }

  /** `processUpdate`: only updates carrying a message with text are parsed. */
  method ProcessUpdate(c: BotClient, registry: CommandRegistry, update: Update) returns (err: Option<Error>)
    ensures update.message.None? || update.message.value.text == "" ==> err == None
    ensures update.message.Some? && update.message.value.text != "" ==>
      match ParseCommand(c.prefix, update.message.value.text, update.message.value)
      case None => err == Some(NewError(CommandNotFoundError, []))
      case Some(cmd) => err == Dispatch(registry.middleware, registry.commands, cmd)
  {
    if update.message.None? {
      return None;
    }
    var m := update.message.value;
    if m.text == "" {
      return None;
    }
    var command := ParseCommand(c.prefix, m.text, m);
    if command.None? {
      return Some(NewError(CommandNotFoundError, []));
    }
    err := registry.Handler(command.value);
  }

  /** `processMessage`: text messages and photos are parsed, a photo by its caption. */
  method ProcessMessage(c: BotClient, registry: CommandRegistry, m: Message) returns (err: Option<Error>)
    ensures m.text == "" && m.photoCount == 0 ==> err == None
    ensures m.text != "" || m.photoCount > 0 ==>
      match ParseCommand(c.prefix, CommandText(m), m)
      case None => err == Some(NewError(CommandNotFoundError, []))
      case Some(cmd) => err == Dispatch(registry.middleware, registry.commands, cmd)
  {
    if m.text == "" && m.photoCount == 0 {
      return None;
    }
    var commandText := m.text;
    if commandText == "" {
      commandText := m.caption;
    }
    var command := ParseCommand(c.prefix, commandText, m);
    if command.None? {
      return Some(NewError(CommandNotFoundError, []));
    }
    err := registry.Handler(command.value);
  }
}
