/**
 * The bot's error values (error.go): a numeric code and a message taken
 * from a fixed table unless the caller supplies one.
 */
module Errors {

  const InvalidConfig := 10400
  const RequestFailure := 10401
  const TelegramApiError := 10402
  const TelegramBotError := 10410
  const SendMessageError := 10411
  const ParseResponseError := 10412
  const CommandNotFoundError := 10413
  const IllegalParameterError := 10414
  const MessageTypeError := 10415

  /** The codes that have an entry in the message table. */
  const KnownCodes: set<int> := {
    InvalidConfig, RequestFailure, TelegramApiError, TelegramBotError, SendMessageError,
    ParseResponseError, CommandNotFoundError, IllegalParameterError, MessageTypeError
  }

  /**
   * The code -> message table; an absent code reads as Go's zero value, the
   * empty string, so exactly the nine declared codes have a message.
   */
  function ErrorMessage(code: int): (m: string)
    ensures m != "" <==> code in KnownCodes
  {
    if code == InvalidConfig then "Invalid bot config"
    else if code == RequestFailure then "request failure"
    else if code == TelegramApiError then "telegram API error"
    else if code == TelegramBotError then "telegram bot is nil"
    else if code == SendMessageError then "Telegram send message error"
    else if code == ParseResponseError then "failed to parse response"
    else if code == CommandNotFoundError then "command not found"
    else if code == IllegalParameterError then "illegal parameter"
    else if code == MessageTypeError then "Unsupported message type"
    else ""
  }

  datatype Error = Error(code: int, msg: string) {

    function ErrorCode(): (c: int)
      ensures c == code
    {
      code
    }

    /** The text of the error, as Go's `error` interface reports it. */
    function Text(): (s: string)
      ensures s == msg
    {
      msg
    }
  }

  /**
   * `NewError(code, msg...)`: the variadic message list is `msg`; its first
   * element, when present, overrides the table.
   */
  function NewError(code: int, msg: seq<string>): (e: Error)
    ensures e.ErrorCode() == code
    ensures |msg| > 0 ==> e.Text() == msg[0]
    ensures |msg| == 0 ==> e.Text() == ErrorMessage(code)
  {
    Error(code, if |msg| > 0 then msg[0] else ErrorMessage(code))
  }
}
