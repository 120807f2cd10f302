/**
 * The messaging bot the notifier talks to. The library itself is foreign; the
 * model keeps the requests the bot has made, in order, and takes the
 * service's answer to each request as an input.
 */
module Telegram {
  import opened Wrappers
  import opened Python

  /** One sendMessage request: the chat it targets and the text it carries. */
  datatype Request = Request(chatId: string, text: string)

  class Bot {
    const token: string
    /** Every sendMessage request this bot has made, oldest first. */
    var requests: seq<Request>

    constructor (token: string)
      ensures this.token == token && requests == []
    {
      this.token := token;
      requests := [];
    }

    /** Makes one sendMessage request. Whether the service accepts it is
        `delivered`; a refusal surfaces as a TelegramError. */
    method SendMessage(chatId: string, text: string, delivered: bool) returns (r: Result<(), Exception>)
      modifies this
      ensures requests == old(requests) + [Request(chatId, text)]
      ensures r == if delivered then Ok(()) else Err(TelegramError)
    {
      requests := requests + [Request(chatId, text)];
      r := if delivered then Ok(()) else Err(TelegramError);
    }
  }
}
