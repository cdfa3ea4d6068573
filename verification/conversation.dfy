/**
 * The conversation endpoint: dispatch on the request path to the chat
 * branch (guard chain, system prompt, chat completion, charge) or the save
 * branch (store one conversation record).
 */
module Conversation {
  import opened Wrappers
  import opened JsValues
  import opened ApiLimit
  import opened Subscription
  import opened QuotaGate

  const CHAT_PATH: string := "/api/conversation"
  const SAVE_PATH: string := "/api/conversation/conversations"

  /** The system prompt put before the client's messages. */
  const PRE_PROMPT: seq<ChatMessage> := [ChatMessage("system",
    "You are Esifi, an advanced chatbot created by Favesco. Your purpose is to engage in conversation and assist users to the best of your abilities while being as human-like as possible.")]

  /** The parsed request body: `messages` may be absent. */
  datatype ConversationBody = ConversationBody(messages: Option<seq<ChatMessage>>)

  /**
   * The chat-completion call: it throws, or returns a reply with no
   * choices, or returns one whose first choice has this message (possibly absent).
   */
  datatype Completion = CompletionThrew | NoChoices | CompletionReturned(message: Option<ChatMessage>)

  /** A conversation record; the serialized `messages` column is kept as the list it encodes. */
  datatype SavedConversation = SavedConversation(userId: string, messages: Option<seq<ChatMessage>>)

  /** The conversation table, appended to by the save branch. */
  class ConversationStore {
    var conversations: seq<SavedConversation>

    constructor (initial: seq<SavedConversation>)
      ensures conversations == initial
    {
      conversations := initial;
    }

    method Create(record: SavedConversation)
      modifies this
      ensures conversations == old(conversations) + [record]
    {
      conversations := conversations + [record];
    }
  }

  /** The chat branch gets past its guards: signed in, configured, messages present, quota left. */
  predicate ChatGuardsPass(counts: Counts, subs: Subscriptions, now: int, userId: Option<string>,
                           apiKeyConfigured: bool, body: Option<ConversationBody>)
  {
    body.Some? && Truthy(userId) && apiKeyConfigured && body.value.messages.Some?
    && Allowed(counts, subs, userId, now)
  }

  /**
   * The chat branch's answer from the provider outcome, as the catch block
   * sees it: `choices[0].message` throws when there is no choice, and
   * `NextResponse.json(undefined)` throws when there is no message.
   */
  function ChatAnswer(completion: Completion): (reply: Reply)
    ensures reply.HasStatus(200) <==> completion.CompletionReturned? && completion.message.Some?
    ensures reply.HasStatus(200) ==> reply.payload == ChatJson(completion.message.value)
    ensures !reply.HasStatus(200) ==> reply == Respond(500, PlainText("Internal Error"))
  {
    match completion
    case CompletionReturned(Some(message)) => Respond(200, ChatJson(message))
    case _ => Respond(500, PlainText("Internal Error"))
  }

  /**
   * As written, the chat branch charges as soon as the provider returns,
   * before it builds the answer: with no choice, or no message, a non-Pro
   * caller is charged for a 500.
   */
  lemma ChargedOnFailedAnswer(counts: Counts, subs: Subscriptions, userId: Option<string>, now: int,
                              completion: Completion)
    requires Truthy(userId) && !CheckSubscription(subs, userId, now)
    requires completion == NoChoices || completion == CompletionReturned(None)
    ensures ChatAnswer(completion) == Respond(500, PlainText("Internal Error"))
    ensures Settled(counts, subs, userId, now, !completion.CompletionThrew?) == Incremented(counts, userId)
    ensures GetApiLimitCount(Settled(counts, subs, userId, now, !completion.CompletionThrew?), userId)
            == GetApiLimitCount(counts, userId) + 1
  {
  }

  /**
   * The settlement the chat branch evidently intends (charge only for a
   * served request): the answer is built first and the caller is charged
   * only when it is a 200.
   */
  function SettledAfterAnswer(counts: Counts, subs: Subscriptions, userId: Option<string>, now: int,
                              completion: Completion): (after: Counts)
    ensures !ChatAnswer(completion).HasStatus(200) ==> after == counts
    ensures ChatAnswer(completion).HasStatus(200) && !CheckSubscription(subs, userId, now) ==>
              after == Incremented(counts, userId)
    ensures CheckSubscription(subs, userId, now) ==> after == counts
  {
    var answer := ChatAnswer(completion);
    Settled(counts, subs, userId, now, answer.HasStatus(200))
  }

  /**
   * POST on the conversation route. `body` is None when `req.json()`
   * throws; the completion outcome is an input and the messages sent are an
   * output (None: no provider call).
   */
  method Post(pathname: string, ledger: UsageLedger, store: ConversationStore,
              subs: Subscriptions, now: int, userId: Option<string>,
              apiKeyConfigured: bool, body: Option<ConversationBody>, completion: Completion)
    returns (reply: Reply, chatCall: Option<seq<ChatMessage>>)
    modifies ledger, store
    // dispatch: any other path falls through and returns nothing
    ensures pathname != CHAT_PATH && pathname != SAVE_PATH ==>
              reply == Unreturned && chatCall.None?
              && ledger.counts == old(ledger.counts) && store.conversations == old(store.conversations)
    ensures pathname != CHAT_PATH ==> chatCall.None? && ledger.counts == old(ledger.counts)
    ensures pathname != SAVE_PATH ==> store.conversations == old(store.conversations)
    // chat branch: the guards in order
    ensures pathname == CHAT_PATH && body.None? ==> reply == Respond(500, PlainText("Internal Error"))
    ensures pathname == CHAT_PATH && body.Some? && !Truthy(userId) ==>
              reply == Respond(401, PlainText("Unauthorized"))
    ensures pathname == CHAT_PATH && body.Some? && Truthy(userId) && !apiKeyConfigured ==>
              reply.HasStatus(500)
    ensures (pathname == CHAT_PATH && body.Some? && Truthy(userId) && apiKeyConfigured
             && body.value.messages.None?) ==> reply == Respond(400, PlainText("Messages are required"))
    ensures (pathname == CHAT_PATH && body.Some? && Truthy(userId) && apiKeyConfigured
             && body.value.messages.Some? && !Allowed(old(ledger.counts), subs, userId, now)) ==>
              reply.HasStatus(403)
    // the provider sees the system prompt, then the client's messages in their order
    ensures chatCall.Some? <==>
              pathname == CHAT_PATH && ChatGuardsPass(old(ledger.counts), subs, now, userId, apiKeyConfigured, body)
    ensures chatCall.Some? ==> chatCall.value == PRE_PROMPT + body.value.messages.value
    ensures chatCall.Some? ==> reply == ChatAnswer(completion)
    // as written: charged once for a non-Pro caller whenever the provider returned, even when the answer then fails
    ensures pathname == CHAT_PATH ==>
              ledger.counts == Settled(old(ledger.counts), subs, userId, now,
                                       chatCall.Some? && !completion.CompletionThrew?)
    // save branch: one record for a signed-in caller, nothing otherwise
    ensures pathname == SAVE_PATH && body.None? ==>
              reply == Respond(500, PlainText("Error saving conversation"))
              && store.conversations == old(store.conversations)
    ensures pathname == SAVE_PATH && body.Some? && !Truthy(userId) ==>
              reply == Respond(401, PlainText("Unauthorized")) && store.conversations == old(store.conversations)
    ensures pathname == SAVE_PATH && body.Some? && Truthy(userId) ==>
              reply == Respond(200, PlainText("Conversation saved successfully"))
              && store.conversations
                 == old(store.conversations) + [SavedConversation(userId.value, body.value.messages)]
  {
    chatCall := None;
    if pathname == CHAT_PATH {
      if body.None? {
        return Respond(500, PlainText("Internal Error")), None;
      }
      var messages := body.value.messages;
      if !Truthy(userId) {
        return Respond(401, PlainText("Unauthorized")), None;
      }
      if !apiKeyConfigured {
        return Respond(500, PlainText("OpenAI API Key not configured.")), None;
      }
      if messages.None? {
        return Respond(400, PlainText("Messages are required")), None;
      }
      var prompt := PRE_PROMPT + messages.value;
      var freeTrial := CheckApiLimit(ledger.counts, userId);
      var isPro := CheckSubscription(subs, userId, now);
      if !freeTrial && !isPro {
        return Respond(403, PlainText("Free trial has expired. Please upgrade to pro.")), None;
      }
      chatCall := Some(prompt);
      if completion.CompletionThrew? {
        return Respond(500, PlainText("Internal Error")), chatCall;
      }
      if !isPro {
        ledger.IncrementApiLimit(userId);
      }
      match completion
      case NoChoices =>
        reply := Respond(500, PlainText("Internal Error"));
      case CompletionReturned(None) =>
        reply := Respond(500, PlainText("Internal Error"));
      case CompletionReturned(Some(message)) =>
        reply := Respond(200, ChatJson(message));
    } else if pathname == SAVE_PATH {
      if body.None? {
        return Respond(500, PlainText("Error saving conversation")), None;
      }
      if !Truthy(userId) {
        return Respond(401, PlainText("Unauthorized")), None;
      }
      store.Create(SavedConversation(userId.value, body.value.messages));
      reply := Respond(200, PlainText("Conversation saved successfully"));
    } else {
      reply := Unreturned;
    }
  }
}
