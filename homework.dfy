/**
 * The decision logic of the homework-status bot: the startup token check, the
 * send guard, the validation of the status API's answer, the verdict
 * formatter and the body of the polling loop. Network, clock, logging and the
 * messaging library are inputs or are left out.
 */
module Homework {
  import opened Wrappers
  import opened Python
  import opened Telegram

  /** The display text of each review status the API reports. */
  const Verdicts: map<string, string> := map[
    "approved" := "Работа проверена: ревьюеру всё понравилось. Ура!",
    "reviewing" := "Работа взята на проверку ревьюером.",
    "rejected" := "Работа проверена: у ревьюера есть замечания."
  ]

  const HttpOk := 200

  /** The notification for the item called `name` whose verdict reads `verdict`. */
  function StatusMessage(name: string, verdict: string): string {
    "Изменился статус проверки работы \"" + name + "\". " + verdict
  }

  // ---------------------------------------------------------------------
  // Startup
  // ---------------------------------------------------------------------

  /** The three settings read from the environment; None when unset. */
  datatype Config = Config(practicumToken: Option<string>, telegramToken: Option<string>, chatId: Option<string>)

  /** Whether the process stops at startup or goes on to poll. */
  datatype Startup = Exit | Proceed

  predicate TokenMissing(config: Config) {
    config.practicumToken.None? || config.telegramToken.None? || config.chatId.None?
  }

  /** An environment setting as the Python program holds it. */
  function SettingValue(setting: Option<string>): Value {
    match setting
    case None => Null
    case Some(s) => Str(s)
  }

  /** The tokens in the order the startup check visits them. */
  function Tokens(config: Config): seq<Value> {
    [SettingValue(config.practicumToken), SettingValue(config.telegramToken), SettingValue(config.chatId)]
  }

  /** The startup check: calls all() on each token in turn and exits on the
      first one that raises. all() raises only on an unset token, so the
      process exits exactly when a token is unset; an empty one passes. */
  method CheckTokens(config: Config) returns (r: Startup)
    ensures r == Exit <==> TokenMissing(config)
  {
    var tokens := Tokens(config);
    var i := 0;
    while i < |tokens|
      invariant 0 <= i <= |tokens|
      invariant forall j | 0 <= j < i :: tokens[j].Str?
    {
      if All(tokens[i]).Err? {
        return Exit;
      }
      i := i + 1;
    }
    assert tokens[0].Str? && tokens[1].Str? && tokens[2].Str?;
    return Proceed;
  }

  // ---------------------------------------------------------------------
  // Notifier
  // ---------------------------------------------------------------------

  /** Sends `message` to the configured chat unless it is empty, in which case
      the bot is not contacted at all. */
  method SendMessage(bot: Bot, chatId: string, message: string, delivered: bool) returns (r: Result<(), Exception>)
    modifies bot
    ensures message == "" ==> bot.requests == old(bot.requests) && r == Ok(())
    ensures message != "" ==> bot.requests == old(bot.requests) + [Request(chatId, message)]
    ensures message != "" ==> r == if delivered then Ok(()) else Err(TelegramError)
  {
    if Truthy(Str(message)) {
      r := bot.SendMessage(chatId, message, delivered);
    } else {
      r := Ok(());
    }
  }

  // ---------------------------------------------------------------------
  // Status fetcher and response validator
  // ---------------------------------------------------------------------

  /** How the status request went: a transport failure (any requests
      exception), or a reply with its status code and its body decoded as
      JSON, None when the body does not decode. */
  datatype HttpReply = Unreachable | Reply(status: int, body: Option<Value>)

  /** What the fetcher hands back: the decoded body of a 200 reply, and
      Python's None after any failure, which it logs and swallows. */
  function GetApiAnswer(reply: HttpReply): (r: Value)
    ensures reply.Reply? && reply.status == HttpOk && reply.body.Some? ==> r == reply.body.value
    ensures (reply.Unreachable? || reply.status != HttpOk || reply.body.None?) ==> r == Null
  {
    match reply
    case Unreachable => Null
    case Reply(status, body) =>
      if status != HttpOk then Null
      else if body.None? then Null
      else body.value
  }

  /** The shape the validator accepts: a dict whose `homeworks` is a list. */
  predicate WellFormed(response: Value) {
    response.Object? && "homeworks" in response.fields && response.fields["homeworks"].List?
  }

  /** The validator, evaluated as Python evaluates its condition: the `in`
      test first (which raises on None, bools and ints), then the subscript
      (which raises on lists and strs), then the two isinstance tests. */
  function CheckResponse(response: Value): (r: Result<seq<Value>, Exception>)
    ensures r.Ok? <==> WellFormed(response)
    ensures r.Ok? ==> r.value == response.fields["homeworks"].items
    ensures r.Err? ==> r.error == TypeError
  {
    var present :- Contains(response, "homeworks");
    if !present then Err(TypeError)
    else
      var homeworks :- GetItem(response, "homeworks");
      if !homeworks.List? || !response.Object? then Err(TypeError)
      else Ok(homeworks.items)
  }

  // ---------------------------------------------------------------------
  // Verdict formatter
  // ---------------------------------------------------------------------

  /** An item the formatter turns into a message: a dict with a
      `homework_name` and a `status` that is one of the catalogue's keys. */
  predicate Recognised(homework: Value) {
    homework.Object? && "status" in homework.fields && "homework_name" in homework.fields
    && homework.fields["status"].Str? && homework.fields["status"].s in Verdicts
  }

  /** Items whose lookups raise TypeError rather than KeyError: anything but a
      dict, or a dict with both keys whose status is a list or a dict. */
  predicate RaisesTypeError(homework: Value) {
    !homework.Object?
    || ("status" in homework.fields && "homework_name" in homework.fields
        && !Hashable(homework.fields["status"]))
  }

  /** The formatter: reads `status`, then `homework_name`, then the verdict
      for the status; a KeyError from any of the three is re-raised as a
      KeyError, a TypeError passes through. */
  function ParseStatus(homework: Value): (r: Result<string, Exception>)
    ensures r.Ok? <==> Recognised(homework)
    ensures r.Ok? ==> r.value == StatusMessage(ToStr(homework.fields["homework_name"]), Verdicts[homework.fields["status"].s])
    ensures r.Err? ==> r.error == if RaisesTypeError(homework) then TypeError else KeyError
  {
    var status :- GetItem(homework, "status");
    var name :- GetItem(homework, "homework_name");
    var verdict :- Lookup(Verdicts, status);
    Ok(StatusMessage(ToStr(name), verdict))
  }

  // ---------------------------------------------------------------------
  // The polling loop
  // ---------------------------------------------------------------------

  /** The list a well-formed answer carries. */
  function Homeworks(answer: Value): seq<Value>
    requires WellFormed(answer)
  {
    answer.fields["homeworks"].items
  }

  /** What a cycle decides once the answer is in: the text to send (from the
      first item only), nothing to send (an empty list), or the exception
      that ends the cycle. */
  function Decide(answer: Value): Result<Option<string>, Exception> {
    var homeworks :- CheckResponse(answer);
    if |homeworks| != 0 then
      var message :- ParseStatus(homeworks[0]);
      Ok(Some(message))
    else
      Ok(None)
  }

  /** What the outside world does in one cycle: how the status request went,
      and whether the messaging service accepts a message sent in it. */
  datatype Cycle = Cycle(reply: HttpReply, delivered: bool)

  /** How a cycle ends before the loop sleeps: a notification went out,
      nothing changed, or an exception was caught and logged. */
  datatype Outcome = Notified(text: string) | NoChange | Failed(error: Exception)

  function CycleOutcome(cycle: Cycle): Outcome {
    match Decide(GetApiAnswer(cycle.reply))
    case Err(e) => Failed(e)
    case Ok(None) => NoChange
    case Ok(Some(message)) => if cycle.delivered then Notified(message) else Failed(TelegramError)
  }

  /** The requests the bot makes in one cycle. */
  function CycleRequests(chatId: string, cycle: Cycle): seq<Request> {
    match Decide(GetApiAnswer(cycle.reply))
    case Ok(Some(message)) => [Request(chatId, message)]
    case _ => []
  }

  /** The requests the bot makes over a run of cycles, in order. */
  function Sent(chatId: string, cycles: seq<Cycle>): seq<Request>
    decreases |cycles|
  {
    if cycles == [] then [] else Sent(chatId, cycles[..|cycles| - 1]) + CycleRequests(chatId, cycles[|cycles| - 1])
  }

  /** How each cycle of a run ends, in order. */
  function Outcomes(cycles: seq<Cycle>): seq<Outcome>
    decreases |cycles|
  {
    if cycles == [] then [] else Outcomes(cycles[..|cycles| - 1]) + [CycleOutcome(cycles[|cycles| - 1])]
  }

  /** One iteration of the loop: fetch, validate, and when the list is not
      empty format its first item and send it; every exception is caught at
      the end of the cycle. */
  method PollCycle(bot: Bot, chatId: string, cycle: Cycle) returns (outcome: Outcome)
    modifies bot
    ensures outcome == CycleOutcome(cycle)
    ensures bot.requests == old(bot.requests) + CycleRequests(chatId, cycle)
  {
    var response := GetApiAnswer(cycle.reply);
    var checked := CheckResponse(response);
    if checked.Err? {
      return Failed(checked.error);
    }
    var homeworks := checked.value;
    if |homeworks| != 0 {
      var message := ParseStatus(homeworks[0]);
      if message.Err? {
        return Failed(message.error);
      }
      var sent := SendMessage(bot, chatId, message.value, cycle.delivered);
      if sent.Err? {
        return Failed(sent.error);
      }
      return Notified(message.value);
    } else {
      return NoChange;
    }
  }

  /** The loop run over a finite run of cycles. */
  method Poll(bot: Bot, chatId: string, cycles: seq<Cycle>) returns (outcomes: seq<Outcome>)
    modifies bot
    ensures outcomes == Outcomes(cycles)
    ensures bot.requests == old(bot.requests) + Sent(chatId, cycles)
  {
    outcomes := [];
    var i := 0;
    while i < |cycles|
      invariant 0 <= i <= |cycles|
      invariant outcomes == Outcomes(cycles[..i])
      invariant bot.requests == old(bot.requests) + Sent(chatId, cycles[..i])
    {
      var outcome := PollCycle(bot, chatId, cycles[i]);
      PrefixStep(cycles, i);
      AppendAssociative(old(bot.requests), Sent(chatId, cycles[..i]), CycleRequests(chatId, cycles[i]));
      outcomes := outcomes + [outcome];
      i := i + 1;
    }
    assert cycles[..i] == cycles;
  }

  /** The whole program over a finite run of cycles: the startup check, then
      a bot for the configured token and the loop. Returns the requests the
      bot made. */
  method Run(config: Config, cycles: seq<Cycle>) returns (startup: Startup, requests: seq<Request>)
    ensures startup == Exit <==> TokenMissing(config)
    ensures startup == Exit ==> requests == []
    ensures startup == Proceed ==> config.chatId.Some? && requests == Sent(config.chatId.value, cycles)
  {
    startup := CheckTokens(config);
    if startup == Exit {
      return startup, [];
    }
    var bot := new Bot(config.telegramToken.value);
    var outcomes := Poll(bot, config.chatId.value, cycles);
    requests := bot.requests;
  }

  /** The run of the first i + 1 cycles is the run of the first i followed
      by cycle i. */
  lemma PrefixStep(cycles: seq<Cycle>, i: nat)
    requires i < |cycles|
    ensures cycles[..i + 1][..i] == cycles[..i]
    ensures cycles[..i + 1][i] == cycles[i]
  {
  }

  lemma AppendAssociative<T>(a: seq<T>, b: seq<T>, c: seq<T>)
    ensures a + (b + c) == (a + b) + c
  {
  }
}
