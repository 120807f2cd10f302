/**
 * Properties of the bot's decision logic that relate several operations, or
 * one operation over several inputs.
 */
module HomeworkProperties {
  import opened Wrappers
  import opened Python
  import opened Telegram
  import opened Homework

  // ---------------------------------------------------------------------
  // Fetcher and validator
  // ---------------------------------------------------------------------

  /** A transport failure or a reply other than 200 reaches the validator as
      None, which it rejects: the cycle fails with a TypeError and the bot
      is not contacted. */
  lemma FailedFetchIsRejected(reply: HttpReply, delivered: bool, chatId: string)
    requires reply.Unreachable? || reply.status != HttpOk
    ensures GetApiAnswer(reply) == Null
    ensures CheckResponse(GetApiAnswer(reply)) == Err(TypeError)
    ensures CycleOutcome(Cycle(reply, delivered)) == Failed(TypeError)
    ensures CycleRequests(chatId, Cycle(reply, delivered)) == []
  {
  }

  /** Python cannot tell the None of a failed fetch from a 200 reply whose
      body is JSON `null`: the cycle ends the same way. */
  lemma NullBodyLikeFailedFetch(delivered: bool)
    ensures CycleOutcome(Cycle(Reply(HttpOk, Some(Null)), delivered)) == CycleOutcome(Cycle(Unreachable, delivered))
  {
  }

  // ---------------------------------------------------------------------
  // Verdict formatter
  // ---------------------------------------------------------------------

  /** For a recognised status and a str name the message is the template
      filled with the name and that status's verdict, whatever else the item
      holds. */
  lemma RecognisedStatusMessage(fields: map<string, Value>, name: string, status: string)
    requires status in Verdicts
    requires "status" in fields && fields["status"] == Str(status)
    requires "homework_name" in fields && fields["homework_name"] == Str(name)
    ensures ParseStatus(Object(fields)) ==
      Ok("Изменился статус проверки работы \"" + name + "\". " + Verdicts[status])
  {
  }

  /** Only `status` and `homework_name` matter to the formatter. */
  lemma OtherKeysIgnored(f: map<string, Value>, g: map<string, Value>)
    requires ("status" in f <==> "status" in g) && ("homework_name" in f <==> "homework_name" in g)
    requires "status" in f ==> f["status"] == g["status"]
    requires "homework_name" in f ==> f["homework_name"] == g["homework_name"]
    ensures ParseStatus(Object(f)) == ParseStatus(Object(g))
  {
  }

  /** A missing `status`, a missing `homework_name` and a str status outside
      the catalogue all end in the same KeyError. */
  lemma MissingKeyOrUnknownStatus(fields: map<string, Value>)
    ensures "status" !in fields ==> ParseStatus(Object(fields)) == Err(KeyError)
    ensures "homework_name" !in fields ==> ParseStatus(Object(fields)) == Err(KeyError)
    ensures ("status" in fields && "homework_name" in fields && fields["status"].Str?
             && fields["status"].s !in Verdicts) ==> ParseStatus(Object(fields)) == Err(KeyError)
  {
  }

  /** The three verdict texts differ from each other. */
  lemma VerdictsDistinct(s: string, t: string)
    requires s in Verdicts && t in Verdicts && s != t
    ensures Verdicts[s] != Verdicts[t]
  {
  }

  /** Two different recognised statuses of the same item give different
      messages. */
  lemma DistinctStatusesDistinctMessages(name: string, s: string, t: string)
    requires s in Verdicts && t in Verdicts && s != t
    ensures StatusMessage(name, Verdicts[s]) != StatusMessage(name, Verdicts[t])
  {
  }

  // ---------------------------------------------------------------------
  // One cycle
  // ---------------------------------------------------------------------

  /** A cycle decides no change exactly when the answer is well formed with an
      empty list, and has a message exactly when the list's first item is
      recognised; that message is the formatter's text for the first item.
      Otherwise the cycle fails with the validator's TypeError or with the
      formatter's exception for the first item. */
  lemma DecideCases(answer: Value)
    ensures Decide(answer) == Ok(None) <==> WellFormed(answer) && Homeworks(answer) == []
    ensures (Decide(answer).Ok? && Decide(answer).value.Some?) <==>
              WellFormed(answer) && Homeworks(answer) != [] && Recognised(Homeworks(answer)[0])
    ensures Decide(answer).Ok? && Decide(answer).value.Some? ==>
              Decide(answer).value.value == ParseStatus(Homeworks(answer)[0]).value != ""
    ensures !WellFormed(answer) ==> Decide(answer) == Err(TypeError)
    ensures (WellFormed(answer) && Homeworks(answer) != [] && !Recognised(Homeworks(answer)[0]))
            ==> Decide(answer) == Err(ParseStatus(Homeworks(answer)[0]).error)
  {
  }

  /** Only the first item of a non-empty list decides the cycle. */
  lemma FirstItemOnly(a: Value, b: Value)
    requires WellFormed(a) && WellFormed(b)
    requires Homeworks(a) != [] && Homeworks(b) != [] && Homeworks(a)[0] == Homeworks(b)[0]
    ensures Decide(a) == Decide(b)
  {
  }

  /** The requests of a cycle agree with how it ends: a notified or
      undelivered message was one request with that text to the configured
      chat; a quiet or otherwise failed cycle made none. */
  lemma RequestsMatchOutcome(chatId: string, cycle: Cycle)
    ensures CycleOutcome(cycle).Notified? ==>
              CycleRequests(chatId, cycle) == [Request(chatId, CycleOutcome(cycle).text)]
    ensures CycleOutcome(cycle) == Failed(TelegramError) ==> |CycleRequests(chatId, cycle)| == 1
    ensures (CycleOutcome(cycle).NoChange? || (CycleOutcome(cycle).Failed? && CycleOutcome(cycle).error != TelegramError))
            ==> CycleRequests(chatId, cycle) == []
  {
  }

  // ---------------------------------------------------------------------
  // Runs of cycles
  // ---------------------------------------------------------------------

  function Repeat<T>(x: T, n: nat): seq<T>
    decreases n
  {
    if n == 0 then [] else [x] + Repeat(x, n - 1)
  }

  lemma {:induction false} RepeatSnoc<T>(x: T, n: nat)
    ensures Repeat(x, n + 1) == Repeat(x, n) + [x]
    decreases n
  {
    if n != 0 {
      RepeatSnoc(x, n - 1);
    }
  }

  /** The loop's outcomes list one outcome per cycle, in order. */
  lemma {:induction false} OutcomesAt(cycles: seq<Cycle>)
    ensures |Outcomes(cycles)| == |cycles|
    ensures forall i | 0 <= i < |cycles| :: Outcomes(cycles)[i] == CycleOutcome(cycles[i])
    decreases |cycles|
  {
    if cycles != [] {
      var init := cycles[..|cycles| - 1];
      OutcomesAt(init);
      assert forall i | 0 <= i < |init| :: cycles[i] == init[i];
    }
  }

  /** Every request targets the configured chat and carries a non-empty
      text, and no cycle makes more than one. */
  lemma {:induction false} SentShape(chatId: string, cycles: seq<Cycle>)
    ensures forall i | 0 <= i < |cycles| :: |CycleRequests(chatId, cycles[i])| <= 1
    ensures |Sent(chatId, cycles)| <= |cycles|
    ensures forall k | 0 <= k < |Sent(chatId, cycles)| ::
              Sent(chatId, cycles)[k].chatId == chatId && Sent(chatId, cycles)[k].text != ""
    decreases |cycles|
  {
    if cycles != [] {
      var last := cycles[|cycles| - 1];
      var init := cycles[..|cycles| - 1];
      SentShape(chatId, init);
      assert forall i | 0 <= i < |init| :: cycles[i] == init[i];
      DecideCases(GetApiAnswer(last.reply));
    }
  }

  /** There is no memory across cycles: the same answer on every cycle makes
      the bot send the same message once per cycle. */
  lemma {:induction false} SameAnswerEveryCycle(chatId: string, cycles: seq<Cycle>, reply: HttpReply, message: string)
    requires forall i | 0 <= i < |cycles| :: cycles[i].reply == reply
    requires Decide(GetApiAnswer(reply)) == Ok(Some(message))
    ensures Sent(chatId, cycles) == Repeat(Request(chatId, message), |cycles|)
    decreases |cycles|
  {
    if cycles != [] {
      SameAnswerEveryCycle(chatId, cycles[..|cycles| - 1], reply, message);
      RepeatSnoc(Request(chatId, message), |cycles| - 1);
    }
  }

  /** A run in which every answer is rejected, empty, or unformattable makes
      no request at all. */
  lemma {:induction false} QuietRun(chatId: string, cycles: seq<Cycle>)
    requires forall i | 0 <= i < |cycles| :: CycleOutcome(cycles[i]).NoChange? || CycleOutcome(cycles[i]) == Failed(TypeError) || CycleOutcome(cycles[i]) == Failed(KeyError)
    ensures Sent(chatId, cycles) == []
    decreases |cycles|
  {
    if cycles != [] {
      RequestsMatchOutcome(chatId, cycles[|cycles| - 1]);
      QuietRun(chatId, cycles[..|cycles| - 1]);
    }
  }

  // ---------------------------------------------------------------------
  // Scenarios
  // ---------------------------------------------------------------------

  function Item(status: string, name: string): Value {
    Object(map["status" := Str(status), "homework_name" := Str(name)])
  }

  function Answer(items: seq<Value>): HttpReply {
    Reply(HttpOk, Some(Object(map["homeworks" := List(items)])))
  }

  /** A 503 reply fails the cycle in the validator. */
  lemma ServiceUnavailableScenario(chatId: string, delivered: bool)
    ensures CycleOutcome(Cycle(Reply(503, Some(Null)), delivered)) == Failed(TypeError)
    ensures CycleRequests(chatId, Cycle(Reply(503, Some(Null)), delivered)) == []
  {
    FailedFetchIsRejected(Reply(503, Some(Null)), delivered, chatId);
  }

  /** An empty list changes nothing. */
  lemma EmptyListScenario(chatId: string, delivered: bool)
    ensures CycleOutcome(Cycle(Answer([]), delivered)) == NoChange
    ensures CycleRequests(chatId, Cycle(Answer([]), delivered)) == []
  {
  }

  /** An approved item sends the approval text. */
  lemma ApprovedScenario(chatId: string)
    ensures CycleRequests(chatId, Cycle(Answer([Item("approved", "hw1")]), true)) ==
      [Request(chatId, "Изменился статус проверки работы \"" + "hw1" + "\". " + "Работа проверена: ревьюеру всё понравилось. Ура!")]
  {
  }

  /** A status outside the catalogue fails with a KeyError. */
  lemma UnknownStatusScenario(chatId: string, delivered: bool)
    ensures CycleOutcome(Cycle(Answer([Item("unknown", "hw2")]), delivered)) == Failed(KeyError)
    ensures CycleRequests(chatId, Cycle(Answer([Item("unknown", "hw2")]), delivered)) == []
  {
  }

  /** A list where a dict is expected fails with a TypeError. */
  lemma ListAnswerScenario(chatId: string, delivered: bool)
    ensures CycleOutcome(Cycle(Reply(HttpOk, Some(List([]))), delivered)) == Failed(TypeError)
    ensures CycleRequests(chatId, Cycle(Reply(HttpOk, Some(List([]))), delivered)) == []
  {
  }
}
