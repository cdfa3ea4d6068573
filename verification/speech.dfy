/**
 * The speech endpoint: identity check, quota pre-check, text-to-speech
 * call, and the charge on success; a provider error's status is passed on.
 */
module Speech {
  import opened Wrappers
  import opened JsValues
  import opened ApiLimit
  import opened Subscription
  import opened QuotaGate

  const MODEL_ID: string := "eleven_multilingual_v2"
  const AUDIO_MPEG: string := "audio/mpeg"

  /** The parsed request body; both fields may be absent. */
  datatype SpeechBody = SpeechBody(message: Option<string>, voice: Option<string>)

  /** What the text-to-speech provider is asked for. */
  datatype SpeechRequest = SpeechRequest(voice: Option<string>, modelId: string, text: Option<string>)

  /** The provider call: audio, or a thrown error carrying (perhaps) a statusCode. */
  datatype SpeechResult = Generated(audio: seq<bv8>) | GenerateThrew(statusCode: Option<int>)

  /** Statuses a response with a body may not have. */
  predicate NullBodyStatus(code: int)
  {
    code == 204 || code == 205 || code == 304
  }

  /** `status` is a WebIDL unsigned short: an integer status is taken modulo 2^16. */
  const STATUS_RANGE: int := 0x1_0000

  /**
   * `Response.json(error, { status: error.statusCode })`: an absent status
   * falls back to 200; the status is converted to an unsigned short; a
   * converted status outside 200..599, or one that forbids a body, makes
   * the call throw.
   */
  function ErrorReply(statusCode: Option<int>): (reply: Reply)
    ensures reply.Respond? ==>
              0 <= reply.status < STATUS_RANGE && reply.status % STATUS_RANGE == statusCode.GetOr(200) % STATUS_RANGE
              && reply.payload == ErrorJson(statusCode)
    ensures statusCode.Some? && 200 <= statusCode.value <= 599 && !NullBodyStatus(statusCode.value) ==>
              reply == Respond(statusCode.value, ErrorJson(statusCode))
    ensures statusCode.None? ==> reply == Respond(200, ErrorJson(None))
    ensures reply.Threw? <==>
              statusCode.Some? &&
              var status := statusCode.value % STATUS_RANGE;
              status < 200 || status > 599 || NullBodyStatus(status)
    ensures reply.Respond? || reply.Threw?
  {
    match statusCode
    case None => Respond(200, ErrorJson(statusCode))
    case Some(code) =>
      var status := code % STATUS_RANGE;
      if status < 200 || status > 599 || NullBodyStatus(status) then Threw
      else Respond(status, ErrorJson(statusCode))
  }

  /**
   * POST /api/speech. `body` is None when `req.json()` throws (outside the
   * try block, so the exception escapes the handler); the provider outcome
   * is an input and the request sent to it an output (None: no call).
   */
  method Post(ledger: UsageLedger, subs: Subscriptions, now: int, userId: Option<string>,
              body: Option<SpeechBody>, tts: SpeechResult)
    returns (reply: Reply, ttsCall: Option<SpeechRequest>)
    modifies ledger
    // identity comes first, before the body is read
    ensures !Truthy(userId) ==> reply == Respond(401, PlainText("Unauthorized"))
    ensures Truthy(userId) && body.None? ==> reply == Threw
    ensures (Truthy(userId) && body.Some? && !Allowed(old(ledger.counts), subs, userId, now)) ==>
              reply == Respond(403, PlainText("Free trial has expired. Please upgrade to pro."))
    // the provider is called once every guard has passed, with the message as given
    ensures ttsCall.Some? <==> Truthy(userId) && body.Some? && Allowed(old(ledger.counts), subs, userId, now)
    ensures ttsCall.Some? ==> ttsCall.value == SpeechRequest(body.value.voice, MODEL_ID, body.value.message)
    ensures ttsCall.Some? && tts.Generated? ==> reply == Respond(200, Audio(tts.audio, AUDIO_MPEG))
    ensures ttsCall.Some? && tts.GenerateThrew? ==> reply == ErrorReply(tts.statusCode)
    // no 400 of its own: a 400 can only be the provider's
    ensures reply.HasStatus(400) ==>
              tts.GenerateThrew? && tts.statusCode.Some? && tts.statusCode.value % STATUS_RANGE == 400
    // charged once for a served non-Pro caller, never on an error path
    ensures ledger.counts == Settled(old(ledger.counts), subs, userId, now, ttsCall.Some? && tts.Generated?)
  {
    ttsCall := None;
    if !Truthy(userId) {
      return Respond(401, PlainText("Unauthorized")), None;
    }
    if body.None? {
      return Threw, None;
    }
    var fields := body.value;
    var freeTrial := CheckApiLimit(ledger.counts, userId);
    var isPro := CheckSubscription(subs, userId, now);
    if !freeTrial && !isPro {
      return Respond(403, PlainText("Free trial has expired. Please upgrade to pro.")), None;
    }
    ttsCall := Some(SpeechRequest(fields.voice, MODEL_ID, fields.message));
    match tts
    case Generated(audio) =>
      if !isPro {
        ledger.IncrementApiLimit(userId);
      }
      reply := Respond(200, Audio(audio, AUDIO_MPEG));
    case GenerateThrew(statusCode) =>
      reply := ErrorReply(statusCode);
  }

  /**
   * A new free-tier caller asks for speech six times and the provider
   * always answers: the first five are served, the sixth is refused with
   * 403, and the ledger ends at 5.
   */
  method FreeTierScenario(subs: Subscriptions, now: int, userId: Option<string>, audio: seq<bv8>)
    returns (statuses: seq<int>, finalCount: nat)
    requires Truthy(userId) && !CheckSubscription(subs, userId, now)
    ensures statuses == [200, 200, 200, 200, 200, 403]
    ensures finalCount == MAX_FREE_COUNTS
  {
    var ledger := new UsageLedger(map[]);
    var request := SpeechBody(Some("Hello"), Some("Adam"));
    statuses := [];
    var i := 0;
    while i < 6
      invariant 0 <= i <= 6
      invariant |statuses| == i
      invariant forall k :: 0 <= k < i ==> statuses[k] == if k < MAX_FREE_COUNTS then 200 else 403
      invariant GetApiLimitCount(ledger.counts, userId) == if i < MAX_FREE_COUNTS then i else MAX_FREE_COUNTS
    {
      var reply, _ := Post(ledger, subs, now, userId, Some(request), Generated(audio));
      statuses := statuses + [reply.status];
      i := i + 1;
    }
    finalCount := GetApiLimitCount(ledger.counts, userId);
  }
}
