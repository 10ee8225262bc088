/**
 * One iteration of the bot's `while True` loop: fetch, validate, pick a message, send it
 * only when it differs from the last one, and advance the query cursor on success.
 */
module Poll {
  import opened Validation
  import opened Json
  import opened Homework

  const EMPTY_LIST := "Список работ пуст"
  const FAILURE_HEAD := "Сбой в работе программы: "

  /** What `get_api_answer(timestamp)` gave: the decoded body, or str() of the error it raised. */
  datatype Fetch = Answer(body: Value) | Unavailable(text: string)

  /** The inputs of one iteration: the API's answer, the clock, and whether the chat accepted a send. */
  datatype Iteration = Iteration(fetch: Fetch, now: int, delivered: bool)

  /** The loop's state: `last_message`, `timestamp`, and the messages the chat has received. */
  datatype PollState = PollState(lastMessage: string, timestamp: int, outbox: seq<string>)

  /** The state right after the startup in `main`: no message yet, cursor at the current time. */
  function Initial(now: int): PollState {
    PollState("", now, [])
  }

  /** The `try` block's message: the first homework's sentence, the empty-list text, or an error. */
  function Produce(fetch: Fetch): (r: Result<string, Exc>)
    ensures fetch.Unavailable? ==> r == Err(ApiFailure(fetch.text))
    ensures fetch.Answer? && !WellFormedResponse(fetch.body) ==> r == Err(CheckResponse(fetch.body).error)
    ensures fetch.Answer? && WellFormedResponse(fetch.body) ==>
      var homeworks := fetch.body.fields["homeworks"].items;
      r == if homeworks == [] then Ok(EMPTY_LIST) else ParseStatus(homeworks[0])
  {
    match fetch
    case Unavailable(text) => Err(ApiFailure(text))
    case Answer(body) =>
      match CheckResponse(body)
      case Err(e) => Err(e)
      case Ok(homeworks) => if homeworks != [] then ParseStatus(homeworks[0]) else Ok(EMPTY_LIST)
  }

  /** The `except` block's message `Сбой в работе программы: {error}`. */
  function FailureText(e: Exc): (r: string)
    ensures |r| == |FAILURE_HEAD| + |ExcText(e)|
    ensures r[..|FAILURE_HEAD|] == FAILURE_HEAD && r[|FAILURE_HEAD|..] == ExcText(e)
  {
    FAILURE_HEAD + ExcText(e)
  }

  /** The message one iteration compares with `last_message`. */
  function Message(fetch: Fetch): (r: string)
    ensures Produce(fetch).Ok? ==> r == Produce(fetch).value
    ensures Produce(fetch).Err? ==> r == FailureText(Produce(fetch).error)
  {
    match Produce(fetch)
    case Ok(m) => m
    case Err(e) => FailureText(e)
  }

  /** The chat after one call of `send_message`: a refused delivery is swallowed. */
  function Deliver(outbox: seq<string>, message: string, delivered: bool): (r: seq<string>)
    ensures |r| == if delivered then |outbox| + 1 else |outbox|
    ensures r[..|outbox|] == outbox
    ensures delivered ==> r[|outbox|] == message
  {
    if delivered then outbox + [message] else outbox
  }

  /** The state after one iteration. */
  function Next(s: PollState, it: Iteration): (t: PollState)
    ensures Message(it.fetch) == s.lastMessage ==> t == s
    ensures Message(it.fetch) != s.lastMessage ==>
      t.lastMessage == Message(it.fetch) && t.outbox == Deliver(s.outbox, t.lastMessage, it.delivered)
    ensures t.timestamp == if Produce(it.fetch).Ok? && Message(it.fetch) != s.lastMessage then it.now else s.timestamp
  {
    match Produce(it.fetch)
    case Ok(message) =>
      if message != s.lastMessage then PollState(message, it.now, Deliver(s.outbox, message, it.delivered))
      else s
    case Err(error) =>
      var message := FailureText(error);
      if message != s.lastMessage then PollState(message, s.timestamp, Deliver(s.outbox, message, it.delivered))
      else s
  }

  /** The state after a finite run of iterations, in order. */
  function Replay(s: PollState, its: seq<Iteration>): PollState {
    if its == [] then s else Next(Replay(s, its[..|its| - 1]), its[|its| - 1])
  }

  /** Does one iteration call `send_message`? */
  predicate Sends(s: PollState, fetch: Fetch) {
    Message(fetch) != s.lastMessage
  }

  // ---------------------------------------------------------------- the loop as a class

  /** The bot's loop variables, updated in place by each iteration. */
  class Poller {
    var lastMessage: string
    var timestamp: int
    var outbox: seq<string>

    function State(): PollState
      reads this
    {
      PollState(lastMessage, timestamp, outbox)
    }

    constructor (now: int)
      ensures State() == Initial(now)
    {
      lastMessage := "";
      timestamp := now;
      outbox := [];
    }

    /** `send_message`: the text reaches the chat unless the platform refuses it, which is swallowed. */
    method SendMessage(message: string, delivered: bool)
      modifies this
      ensures outbox == Deliver(old(outbox), message, delivered)
      ensures lastMessage == old(lastMessage) && timestamp == old(timestamp)
    {
      if delivered {
        outbox := outbox + [message];
      }
    }

    /** One pass through the body of `while True`. */
    method Step(it: Iteration) returns (sent: bool)
      modifies this
      ensures State() == Next(old(State()), it)
      ensures sent == Sends(old(State()), it.fetch)
    {
      var outcome := Produce(it.fetch);
      match outcome {
        case Ok(message) =>
          sent := message != lastMessage;
          if sent {
            SendMessage(message, it.delivered);
            timestamp := it.now;
            lastMessage := message;
          }
        case Err(error) =>
          var message := FailureText(error);
          sent := message != lastMessage;
          if sent {
            SendMessage(message, it.delivered);
            lastMessage := message;
          }
      }
    }

    /** The loop over any finite number of iterations. */
    method Run(its: seq<Iteration>)
      modifies this
      ensures State() == Replay(old(State()), its)
    {
      var i := 0;
      while i < |its|
        invariant 0 <= i <= |its|
        invariant State() == Replay(old(State()), its[..i])
      {
        assert its[..i + 1][..i] == its[..i];
        var _ := Step(its[i]);
        i := i + 1;
      }
      assert its[..|its|] == its;
    }
  }

  /** `main`'s startup: without all three credentials the process exits and no loop is created. */
  method Start(c: Credentials, now: int) returns (p: Poller?)
    ensures (p != null) == CheckTokens(c)
    ensures p != null ==> fresh(p) && p.State() == Initial(now)
  {
    if !CheckTokens(c) {
      return null;
    }
    p := new Poller(now);
  }

  // ---------------------------------------------------------------- properties of the loop

  /** Only the first homework decides the message; the rest of the list is ignored. */
  lemma OnlyFirstHomeworkCounts(b1: Value, b2: Value)
    requires WellFormedResponse(b1) && WellFormedResponse(b2)
    requires b1.fields["homeworks"].items != [] && b2.fields["homeworks"].items != []
    requires b1.fields["homeworks"].items[0] == b2.fields["homeworks"].items[0]
    ensures Message(Answer(b1)) == Message(Answer(b2))
  {
  }

  /** A poll whose message equals the previous poll's sends nothing and changes nothing, whatever the clock says. */
  lemma SecondIdenticalPollIsSilent(s: PollState, it1: Iteration, it2: Iteration)
    requires Message(it2.fetch) == Message(it1.fetch)
    ensures !Sends(Next(s, it1), it2.fetch)
    ensures Next(Next(s, it1), it2) == Next(s, it1)
    ensures |Next(Next(s, it1), it2).outbox| <= |s.outbox| + 1
  {
  }

  /** Two well-formed answers with the same first homework, e.g. with different `current_date`s: the second poll is silent. */
  lemma UnchangedFirstHomeworkIsSilent(s: PollState, b1: Value, b2: Value, now1: int, now2: int, d1: bool, d2: bool)
    requires WellFormedResponse(b1) && WellFormedResponse(b2)
    requires b1.fields["homeworks"].items != [] && b2.fields["homeworks"].items != []
    requires b1.fields["homeworks"].items[0] == b2.fields["homeworks"].items[0]
    ensures var t := Next(s, Iteration(Answer(b1), now1, d1));
      !Sends(t, Answer(b2)) && Next(t, Iteration(Answer(b2), now2, d2)) == t
  {
    OnlyFirstHomeworkCounts(b1, b2);
    SecondIdenticalPollIsSilent(s, Iteration(Answer(b1), now1, d1), Iteration(Answer(b2), now2, d2));
  }

  /** The first letters that tell the loop's three kinds of message apart. */
  lemma MessageHeads()
    ensures FAILURE_HEAD[0] == 'С' && FAILURE_HEAD[1] == 'б'
    ensures EMPTY_LIST[0] == 'С' && EMPTY_LIST[1] == 'п'
    ensures TEMPLATE_HEAD[0] == 'И'
  {
  }

  /** Every status sentence starts like the template. */
  lemma SentenceStart(name: string, verdict: string)
    ensures |Template(name, verdict)| > 0 && Template(name, verdict)[0] == TEMPLATE_HEAD[0]
  {
    assert Template(name, verdict) == TEMPLATE_HEAD + (name + TEMPLATE_MIDDLE + verdict);
  }

  /** Every message of the success path is the empty-list text or a status sentence. */
  lemma SuccessMessageShape(fetch: Fetch)
    requires Produce(fetch).Ok?
    ensures var m := Produce(fetch).value; m == EMPTY_LIST || (|m| > 0 && m[0] == TEMPLATE_HEAD[0])
  {
    assert fetch.Answer? && WellFormedResponse(fetch.body);
    var homeworks := fetch.body.fields["homeworks"].items;
    if homeworks != [] {
      var h := homeworks[0];
      SentenceStart(PyStr(h.fields["homework_name"]), VERDICTS[h.fields["status"].s]);
    }
  }

  /** A failure message can never equal a message of the success path. */
  lemma FailureDiffersFromSuccess(e: Exc, fetch: Fetch)
    requires Produce(fetch).Ok?
    ensures FailureText(e) != Message(fetch)
  {
    MessageHeads();
    SuccessMessageShape(fetch);
    var f := FailureText(e);
    assert f[0] == FAILURE_HEAD[0] && f[1] == FAILURE_HEAD[1];
  }

  /** After a failure was reported, the first successful iteration is always sent and moves the cursor. */
  lemma RecoveryIsReported(s: PollState, e: Exc, it: Iteration)
    requires s.lastMessage == FailureText(e)
    requires Produce(it.fetch).Ok?
    ensures Sends(s, it.fetch)
    ensures Next(s, it).lastMessage == Message(it.fetch) && Next(s, it).timestamp == it.now
  {
    FailureDiffersFromSuccess(e, it.fetch);
  }

  /**
   * When the last message came from a homework whose status has since changed, the new
   * status is always sent: deduplication never hides a status change.
   */
  lemma StatusChangeIsReported(s: PollState, before: Value, it: Iteration, h: Value)
    requires ParseStatus(before).Ok?
    requires s.lastMessage == ParseStatus(before).value
    requires it.fetch.Answer? && WellFormedResponse(it.fetch.body)
    requires it.fetch.body.fields["homeworks"].items != [] && h == it.fetch.body.fields["homeworks"].items[0]
    requires ParseStatus(h).Ok?
    requires h.fields["homework_name"] == before.fields["homework_name"]
    requires h.fields["status"] != before.fields["status"]
    ensures Sends(s, it.fetch)
    ensures Next(s, it).lastMessage == ParseStatus(h).value && Next(s, it).timestamp == it.now
  {
    var head := TEMPLATE_HEAD + PyStr(h.fields["homework_name"]) + TEMPLATE_MIDDLE;
    VerdictsDifferAtTheEnd(h.fields["status"].s, before.fields["status"].s, head, head);
  }

  /** No two neighbouring entries of a sequence are equal. */
  predicate NoAdjacentRepeats(xs: seq<string>) {
    forall k :: 0 < k < |xs| ==> xs[k - 1] != xs[k]
  }

  /** Every iteration of the run has its send accepted by the chat. */
  predicate AllDelivered(its: seq<Iteration>) {
    forall k :: 0 <= k < |its| ==> its[k].delivered
  }

  /** The chat shows no message twice in a row, and its last message is `last_message`. */
  predicate ChatAgreesWithLast(s: PollState) {
    NoAdjacentRepeats(s.outbox) && (s.outbox != [] ==> s.outbox[|s.outbox| - 1] == s.lastMessage)
  }

  /** Appending a message other than the last one keeps the chat free of immediate repeats. */
  lemma AppendNewKeepsNoRepeats(outbox: seq<string>, last: string, m: string)
    requires NoAdjacentRepeats(outbox) && (outbox != [] ==> outbox[|outbox| - 1] == last)
    requires m != last
    ensures NoAdjacentRepeats(outbox + [m])
  {
    var t := outbox + [m];
    forall k | 0 < k < |t| ensures t[k - 1] != t[k] {
      if k < |outbox| {
        assert t[k - 1] == outbox[k - 1] && t[k] == outbox[k];
      }
    }
  }

  /** A delivered iteration keeps the chat in agreement with `last_message`. */
  lemma DeliveredStepAgrees(p: PollState, it: Iteration)
    requires ChatAgreesWithLast(p) && it.delivered
    ensures ChatAgreesWithLast(Next(p, it))
  {
    if Sends(p, it.fetch) {
      AppendNewKeepsNoRepeats(p.outbox, p.lastMessage, Message(it.fetch));
    }
  }

  /**
   * From startup, while every send is delivered, the chat never receives the same message
   * twice in a row, and the last message it received is `last_message`.
   */
  lemma {:induction false} DeliveredRunHasNoRepeats(now: int, its: seq<Iteration>)
    requires AllDelivered(its)
    ensures ChatAgreesWithLast(Replay(Initial(now), its))
  {
    if its != [] {
      var prefix, last := its[..|its| - 1], its[|its| - 1];
      assert AllDelivered(prefix) by {
        forall k | 0 <= k < |prefix| ensures prefix[k].delivered {
          assert prefix[k] == its[k];
        }
      }
      DeliveredRunHasNoRepeats(now, prefix);
      DeliveredStepAgrees(Replay(Initial(now), prefix), last);
    }
  }

  /** Iteration `k` of a run from `s` succeeded in its try block and called `send_message`. */
  predicate SuccessfulSendAt(s: PollState, its: seq<Iteration>, k: int)
    requires 0 <= k < |its|
  {
    Produce(its[k].fetch).Ok? && Sends(Replay(s, its[..k]), its[k].fetch)
  }

  /** One more iteration either keeps the cursor or sets it to its clock after a successful send. */
  lemma CursorStep(s: PollState, its: seq<Iteration>)
    requires its != []
    ensures var t := Replay(s, its).timestamp;
      t == Replay(s, its[..|its| - 1]).timestamp || (t == its[|its| - 1].now && SuccessfulSendAt(s, its, |its| - 1))
  {
  }

  /** A witness in a run stays a witness when the run is extended. */
  lemma SuccessfulSendExtends(s: PollState, its: seq<Iteration>, k: int)
    requires 0 <= k < |its| - 1
    requires SuccessfulSendAt(s, its[..|its| - 1], k)
    ensures SuccessfulSendAt(s, its, k)
  {
    assert its[..|its| - 1][..k] == its[..k];
  }

  /** The cursor only ever takes its initial value or the clock of an iteration that succeeded and sent. */
  lemma {:induction false} CursorComesFromSuccessfulSends(s: PollState, its: seq<Iteration>)
    ensures var t := Replay(s, its).timestamp;
      t == s.timestamp || exists k :: 0 <= k < |its| && t == its[k].now && SuccessfulSendAt(s, its, k)
  {
    if its != [] {
      var prefix := its[..|its| - 1];
      CursorComesFromSuccessfulSends(s, prefix);
      CursorStep(s, its);
      if Replay(s, its).timestamp == Replay(s, prefix).timestamp && Replay(s, prefix).timestamp != s.timestamp {
        var k :| 0 <= k < |prefix| && Replay(s, prefix).timestamp == prefix[k].now && SuccessfulSendAt(s, prefix, k);
        SuccessfulSendExtends(s, its, k);
      }
    }
  }

  // ---------------------------------------------------------------- worked examples

  /** An answer holding one homework `hw1` that was approved yields the approval sentence. */
  lemma ApprovedExample()
    ensures Message(Answer(Obj(map[
      "homeworks" := Arr([Obj(map["homework_name" := Str("hw1"), "status" := Str("approved")])]),
      "current_date" := Int(1000)])))
      == "Изменился статус проверки работы \"hw1\". " + APPROVED
  {
    var h := Obj(map["homework_name" := Str("hw1"), "status" := Str("approved")]);
    var body := Obj(map["homeworks" := Arr([h]), "current_date" := Int(1000)]);
    assert CheckResponse(body) == Ok([h]);
    assert ParseStatus(h) == Ok(Template("hw1", APPROVED));
    assert TEMPLATE_HEAD + "hw1" == "Изменился статус проверки работы \"hw1";
    assert TEMPLATE_HEAD + "hw1" + TEMPLATE_MIDDLE == "Изменился статус проверки работы \"hw1\". ";
  }

  /** An answer with an empty list yields the empty-list text. */
  lemma EmptyListExample()
    ensures Message(Answer(Obj(map["homeworks" := Arr([]), "current_date" := Int(1000)]))) == "Список работ пуст"
  {
  }

  /** The missing-`homeworks` KeyError text in the single quotes its str() adds. */
  lemma QuotedMissingHomeworks()
    ensures "'" + NO_HOMEWORKS_KEY + "'" == "'Ошибка ключа \"homeworks\"'"
  {
  }

  /** str() of the missing-`homeworks` KeyError, after the failure prefix. */
  lemma MissingHomeworksText()
    ensures FailureText(KeyError(NO_HOMEWORKS_KEY)) == "Сбой в работе программы: " + "'Ошибка ключа \"homeworks\"'"
  {
    var quoted := ExcText(KeyError(NO_HOMEWORKS_KEY));
    assert quoted == "'" + NO_HOMEWORKS_KEY + "'";
    QuotedMissingHomeworks();
    assert FailureText(KeyError(NO_HOMEWORKS_KEY)) == FAILURE_HEAD + quoted;
  }

  /** A response without `homeworks` fails before any record is formatted. */
  lemma MissingHomeworksExample()
    ensures Message(Answer(Obj(map["current_date" := Int(1000)])))
      == "Сбой в работе программы: " + "'Ошибка ключа \"homeworks\"'"
  {
    var body := Obj(map["current_date" := Int(1000)]);
    assert CheckResponse(body) == Err(KeyError(NO_HOMEWORKS_KEY));
    assert Message(Answer(body)) == FailureText(KeyError(NO_HOMEWORKS_KEY));
    MissingHomeworksText();
  }
}
