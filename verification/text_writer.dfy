/**
 * The text-writer endpoint: guard chain, chat completion, word truncation,
 * the humanization submit-and-poll loop, and the charge on success.
 */
module TextWriter {
  import opened Wrappers
  import opened JsValues
  import opened ApiLimit
  import opened Subscription
  import opened QuotaGate
  import WordTruncation

  /** The system message put before the user's prompt. */
  const INSTRUCTION: ChatMessage := ChatMessage("system",
    "You are an AI text writer. Generate humanized text based on the provided prompt. Make the text engaging and creative.")

  /** One answer to the document-status request: a JSON reply, or a fetch/parse that threw. */
  datatype Poll = Polled(status: string, output: string) | PollFailed

  /** What the humanization service does with one job: the submit throws, or it accepts and the polls answer in this order. */
  datatype HumanizerRun = SubmitFailed | Submitted(polls: seq<Poll>)

  /** The body the service is sent on submit. */
  datatype HumanizeRequest = HumanizeRequest(content: string, readability: string, purpose: string, strength: string)

  /**
   * humanizeText's outcome: the output of the first "done" reply, an
   * exception, or (when the given replies run out first) a loop that is
   * still polling.
   */
  datatype Humanized = Done(text: string) | Failed | StillPolling

  /** A poll reply that ends the loop: "done", or a thrown error. */
  predicate EndsLoop(p: Poll)
  {
    p.PollFailed? || p.status == "done"
  }

  /** Reply `j` is the first one that ends the loop. */
  predicate FirstEndAt(polls: seq<Poll>, j: int)
  {
    0 <= j < |polls| && EndsLoop(polls[j]) && forall i :: 0 <= i < j ==> !EndsLoop(polls[i])
  }

  /** The first reply that ends the loop is a "done". */
  predicate ReachesDone(polls: seq<Poll>)
  {
    exists j :: 0 <= j < |polls| && FirstEndAt(polls, j) && polls[j].Polled?
  }

  /** No reply ends the loop: it is still polling when they run out. */
  predicate NeverEnds(polls: seq<Poll>)
  {
    forall j :: 0 <= j < |polls| ==> !EndsLoop(polls[j])
  }

  /**
   * humanizeText after the submit: poll (each request preceded by the
   * 5-second wait) until the first reply whose status is "done"; `polls`
   * is the number of status requests made.
   */
  method HumanizeText(run: HumanizerRun) returns (result: Humanized, polls: nat)
    ensures run.SubmitFailed? ==> result == Failed && polls == 0
    ensures run.Submitted? ==> polls <= |run.polls|
    ensures result.Done? ==>
              run.Submitted? && FirstEndAt(run.polls, polls - 1) && run.polls[polls - 1] == Polled("done", result.text)
    ensures result.Failed? && run.Submitted? ==> FirstEndAt(run.polls, polls - 1) && run.polls[polls - 1] == PollFailed
    ensures result.Done? <==> run.Submitted? && ReachesDone(run.polls)
    ensures result.StillPolling? <==> run.Submitted? && NeverEnds(run.polls)
    ensures result.StillPolling? ==> polls == |run.polls|
  {
    if run.SubmitFailed? {
      return Failed, 0;
    }
    var replies := run.polls;
    var humanizedText := "";
    polls := 0;
    while true
      invariant polls <= |replies|
      invariant forall j :: 0 <= j < polls ==> !EndsLoop(replies[j])
      decreases |replies| - polls
    {
      if polls == |replies| {
        return StillPolling, polls;
      }
      var reply := replies[polls];
      polls := polls + 1;
      if reply.PollFailed? {
        return Failed, polls;
      }
      if reply.status == "done" {
        humanizedText := reply.output;
        break;
      }
    }
    result := Done(humanizedText);
  }

  /** The fields of the parsed request body; maxWords as an integer, or absent. */
  datatype TextWriterBody = TextWriterBody(
    content: Option<string>,
    readability: string,
    purpose: string,
    strength: string,
    maxWords: Option<int>)

  /** The chat-completion call: it throws, or returns the first choice's message content (possibly absent). */
  datatype ChatResult = ChatThrew | ChatReturned(content: Option<string>)

  function DigitText(d: nat): char
    requires d < 10
  {
    "0123456789"[d]
  }

  predicate IsDigit(c: char)
  {
    '0' <= c <= '9'
  }

  /** Reference reading of a decimal numeral: the value its digits denote. */
  function DigitsValue(s: string): nat
    requires forall i :: 0 <= i < |s| ==> IsDigit(s[i])
  {
    if s == [] then 0
    else
      var last := s[|s| - 1];
      assert IsDigit(last);
      DigitsValue(s[..|s| - 1]) * 10 + (last as int - '0' as int)
  }

  /** The decimal numeral of `n`, with no leading zero: its digits read back as `n`. */
  function NatText(n: nat): (r: string)
    ensures r != [] && forall i :: 0 <= i < |r| ==> IsDigit(r[i])
    ensures |r| > 1 ==> r[0] != '0'
    ensures DigitsValue(r) == n
  {
    if n < 10 then [DigitText(n)]
    else
      var front := NatText(n / 10);
      var r := front + [DigitText(n % 10)];
      assert r[..|r| - 1] == front;
      r
  }

  /**
   * `${maxWords}` in a template literal: "undefined" when absent, else the
   * decimal numeral of the number, with a minus sign when negative.
   */
  function MaxWordsText(maxWords: Option<int>): (r: string)
    ensures maxWords.None? ==> r == "undefined"
    ensures maxWords.Some? && maxWords.value >= 0 ==>
              (forall i :: 0 <= i < |r| ==> IsDigit(r[i])) && DigitsValue(r) == maxWords.value
    ensures maxWords.Some? && maxWords.value < 0 ==>
              r != [] && r[0] == '-' && (forall i :: 1 <= i < |r| ==> IsDigit(r[i])) && DigitsValue(r[1..]) == -maxWords.value
  {
    match maxWords
    case None => "undefined"
    case Some(n) =>
      if n < 0 then
        var digits := NatText(-n);
        assert ("-" + digits)[1..] == digits;
        "-" + digits
      else NatText(n)
  }

  /** Text between the user's content and the limit in the prompt. */
  const LIMIT_LABEL: string := "\n\nMaximum words: "

  /**
   * The messages sent to the chat provider: the instruction, then one user
   * message holding the content unchanged, the label, and the limit.
   */
  function Prompt(content: string, maxWords: Option<int>): (messages: seq<ChatMessage>)
    ensures |messages| == 2 && messages[0] == INSTRUCTION && messages[1].role == "user"
    ensures |messages[1].content| == |content| + |LIMIT_LABEL| + |MaxWordsText(maxWords)|
    ensures messages[1].content[..|content|] == content
    ensures messages[1].content[|content|..|content| + |LIMIT_LABEL|] == LIMIT_LABEL
    ensures messages[1].content[|content| + |LIMIT_LABEL|..] == MaxWordsText(maxWords)
  {
    var limit := MaxWordsText(maxWords);
    var text := content + LIMIT_LABEL + limit;
    assert text[..|content|] == content;
    assert text[|content|..|content| + |LIMIT_LABEL|] == LIMIT_LABEL;
    assert text[|content| + |LIMIT_LABEL|..] == limit;
    [INSTRUCTION, ChatMessage("user", text)]
  }

  /**
   * POST /api/text-writer. `body` is None when `req.json()` throws; the
   * chat and humanization outcomes are inputs, and the requests actually
   * sent to them are outputs (None: that provider was not called).
   */
  method Post(ledger: UsageLedger, subs: Subscriptions, now: int, userId: Option<string>,
              apiKeyConfigured: bool, body: Option<TextWriterBody>,
              chat: ChatResult, humanizer: HumanizerRun)
    returns (reply: Reply, chatCall: Option<seq<ChatMessage>>, humanizeCall: Option<HumanizeRequest>)
    modifies ledger
    // a body that does not parse fails the request before identity is looked at
    ensures body.None? ==> reply == Respond(500, PlainText("Internal Error"))
    ensures body.Some? && !Truthy(userId) ==> reply == Respond(401, PlainText("Unauthorized"))
    ensures body.Some? && Truthy(userId) && !apiKeyConfigured ==> reply.HasStatus(500)
    ensures body.Some? && Truthy(userId) && apiKeyConfigured && !Truthy(body.value.content) ==>
              reply == Respond(400, PlainText("Content is required"))
    ensures (body.Some? && Truthy(userId) && apiKeyConfigured && Truthy(body.value.content)
             && !Allowed(old(ledger.counts), subs, userId, now)) ==> reply.HasStatus(403)
    // the provider is called only once every guard has passed, with the instruction first
    ensures chatCall.Some? <==>
              body.Some? && Truthy(userId) && apiKeyConfigured && Truthy(body.value.content)
              && Allowed(old(ledger.counts), subs, userId, now)
    ensures chatCall.Some? ==> chatCall.value == Prompt(body.value.content.value, body.value.maxWords)
    // the humanizer gets the truncated chat answer
    ensures humanizeCall.Some? <==> chatCall.Some? && chat.ChatReturned?
    ensures humanizeCall.Some? ==>
              humanizeCall.value == HumanizeRequest(
                WordTruncation.Truncate(chat.content.GetOr(""), body.value.maxWords),
                body.value.readability, body.value.purpose, body.value.strength)
    ensures humanizeCall.Some? && humanizer.SubmitFailed? ==> reply.HasStatus(500)
    ensures humanizeCall.Some? && !reply.HasStatus(200) && !reply.Pending? ==>
              reply == Respond(500, PlainText("Internal Error"))
    ensures chatCall.Some? && chat.ChatThrew? ==> reply == Respond(500, PlainText("Internal Error"))
    // served exactly when both providers returned; a poll that never says "done" never answers
    ensures reply.HasStatus(200) <==> (humanizeCall.Some? && humanizer.Submitted? && ReachesDone(humanizer.polls))
    ensures reply.Pending? <==> (humanizeCall.Some? && humanizer.Submitted? && NeverEnds(humanizer.polls))
    ensures reply.HasStatus(200) ==>
              reply.payload.HumanizedJson? &&
              exists j :: FirstEndAt(humanizer.polls, j) && humanizer.polls[j] == Polled("done", reply.payload.text)
    // the one side effect: a single charge for a served non-Pro caller
    ensures ledger.counts == Settled(old(ledger.counts), subs, userId, now, reply.HasStatus(200))
  {
    if body.None? {
      return Respond(500, PlainText("Internal Error")), None, None;
    }
    var fields := body.value;
    if !Truthy(userId) {
      return Respond(401, PlainText("Unauthorized")), None, None;
    }
    if !apiKeyConfigured {
      return Respond(500, PlainText("OpenAI API Key not configured.")), None, None;
    }
    if !Truthy(fields.content) {
      return Respond(400, PlainText("Content is required")), None, None;
    }
    var freeTrial := CheckApiLimit(ledger.counts, userId);
    var isPro := CheckSubscription(subs, userId, now);
    if !freeTrial && !isPro {
      return Respond(403, PlainText("Free trial has expired. Please upgrade to pro.")), None, None;
    }
    var messages := Prompt(fields.content.value, fields.maxWords);
    chatCall := Some(messages);
    if chat.ChatThrew? {
      return Respond(500, PlainText("Internal Error")), chatCall, None;
    }
    var generatedText := chat.content.GetOr("");
    var truncatedText := WordTruncation.Truncate(generatedText, fields.maxWords);
    var request := HumanizeRequest(truncatedText, fields.readability, fields.purpose, fields.strength);
    humanizeCall := Some(request);
    var humanized, polls := HumanizeText(humanizer);
    match humanized
    case Failed =>
      reply := Respond(500, PlainText("Internal Error"));
    case StillPolling =>
      reply := Pending;
    case Done(humanizedText) =>
      if !isPro {
        ledger.IncrementApiLimit(userId);
      }
      reply := Respond(200, HumanizedJson(humanizedText));
  }
}
