/**
 * The message lifecycle manager of the activity API: it resolves a
 * conversation token, hands a built card to the chat transport, and keeps a
 * ledger of sent messages that can later be updated or deleted (tombstoned).
 *
 * The two database tables become maps held by `MessageLifecycle`, and the
 * transport becomes a log of calls, each with the outcome the remote side
 * gave; the outcome of a call is a parameter of the operation making it.
 */
module ActivityApi {
  import opened Wrappers
  import CardHelper

  type Uuid = nat
  type Token = Uuid
  type MessageId = Uuid
  type TokenId = nat
  type ReferenceId = nat
  /** The platform's handle of a conversation, used to address the transport. */
  type ConversationTeamsId = string
  /** The identity the remote side gives a sent message. */
  type ActivityId = string
  /** The remote side's error detail, kept opaque. */
  type ErrorBody = string
  /** A value of the database clock (`NOW()`). */
  type Timestamp = int
  /** A container style name; its enumeration is not part of this model. */
  type ContainerStyle = string

  /** The body of a styled text message. */
  datatype TextMessage = TextMessage(
    title: Option<string>,
    titleColor: Option<CardHelper.Color>,
    text: string,
    style: Option<ContainerStyle>,
    bleed: Option<bool>,
    titleStyle: Option<ContainerStyle>,
    titleBleed: Option<bool>,
    summary: Option<string>)

  /** What may be sent: plain text, a styled text message, or a caller-built card. */
  datatype Payload = Text(text: string) | Msg(message: TextMessage) | Card(card: CardHelper.JsonObject)

  /** The three payload fields of a request, each possibly missing. */
  datatype PayloadFields = PayloadFields(
    message: Option<TextMessage>,
    text: Option<string>,
    card: Option<CardHelper.JsonObject>)
  {
    /** How many of the three fields are filled; exactly one is filled when the count is 1. */
    function FilledCount(): (n: nat)
      ensures n <= 3
      ensures n == 0 <==> message.None? && text.None? && card.None?
      ensures n == 1 <==> ExactlyOne()
    {
      (if message.None? then 0 else 1) + (if text.None? then 0 else 1) + (if card.None? then 0 else 1)
    }

    /** Exactly one field is filled. */
    predicate ExactlyOne() {
      || (message.Some? && text.None? && card.None?)
      || (message.None? && text.Some? && card.None?)
      || (message.None? && text.None? && card.Some?)
    }
  }

  /** The body of a send request. */
  datatype SendRequest = SendRequest(conversationToken: Token, fields: PayloadFields, summary: string) {
    /** The request is accepted exactly when one of message, text and card is filled. */
    function CheckThatOnlyOneMessageTypeIsFilled(): (r: Result<SendRequest, string>)
      ensures r.Success? <==> fields.ExactlyOne()
      ensures r.Success? ==> r.value == this
      ensures r.Failure? ==> r.error == "One and only one of message, text, or card must be filled"
    {
      if fields.FilledCount() != 1 then Failure("One and only one of message, text, or card must be filled")
      else Success(this)
    }
  }

  /** The body of an update request. */
  datatype PatchRequest = PatchRequest(messageId: MessageId, fields: PayloadFields, summary: string) {
    /** The request is accepted exactly when one of message, text and card is filled. */
    function CheckThatOnlyOneMessageTypeIsFilled(): (r: Result<PatchRequest, string>)
      ensures r.Success? <==> fields.ExactlyOne()
      ensures r.Success? ==> r.value == this
      ensures r.Failure? ==> r.error == "one and only one of message, text, or card must be filled"
    {
      if fields.FilledCount() != 1 then Failure("one and only one of message, text, or card must be filled")
      else Success(this)
    }
  }

  /**
   * The value of `message or text or card` under Python's truthiness: a
   * message model is always truthy, a text only when non-empty, and the card,
   * being the last operand, is taken as it is (even when empty).
   */
  function Select(f: PayloadFields): (p: Option<Payload>)
    ensures f.message.Some? ==> p == Some(Msg(f.message.value))
    ensures f.message.None? && StrTruthy(f.text) ==> p == Some(Text(f.text.value))
    ensures f.message.None? && !StrTruthy(f.text) && f.card.Some? ==> p == Some(Card(f.card.value))
    ensures p.Some? && p.value.Msg? ==> f.message == Some(p.value.message)
    ensures p.Some? && p.value.Text? ==> f.message.None? && f.text == Some(p.value.text) && p.value.text != ""
    ensures p.Some? && p.value.Card? ==> f.message.None? && !StrTruthy(f.text) && f.card == Some(p.value.card)
    ensures p.None? <==> f.message.None? && !StrTruthy(f.text) && f.card.None?
  {
    if f.message.Some? then Some(Msg(f.message.value))
    else if StrTruthy(f.text) then Some(Text(f.text.value))
    else if f.card.Some? then Some(Card(f.card.value))
    else None
  }

  /**
   * On a request that passed validation, the selection is the filled field,
   * except that an empty text selects nothing; an empty card is still selected.
   */
  lemma SelectValidated(f: PayloadFields)
    requires f.ExactlyOne()
    ensures Select(f).None? <==> f.text == Some("")
    ensures f.message.Some? ==> Select(f) == Some(Msg(f.message.value))
    ensures f.text.Some? && f.text.value != "" ==> Select(f) == Some(Text(f.text.value))
    ensures f.card.Some? ==> Select(f) == Some(Card(f.card.value))
  {
  }

  /** The arguments the service passes to the card helper. */
  datatype CardBuildCall =
    | SimpleMessageCall(
        text: string,
        style: Option<ContainerStyle>,
        bleed: Option<bool>,
        title: Option<string>,
        titleColor: Option<CardHelper.Color>,
        titleStyle: Option<ContainerStyle>,
        titleBleed: Option<bool>)
    | CardCall(card: Option<CardHelper.JsonObject>, summary: string)

  /**
   * Which card-helper call a selected payload leads to: a text or a message
   * goes to the simple-message builder (a text unstyled, a message with its
   * own styling and no summary); anything else, a card or nothing, goes to
   * the card builder with the summary.
   */
  function BuildCallFor(payload: Option<Payload>, summary: string): (c: CardBuildCall)
    ensures c.SimpleMessageCall? <==> payload.Some? && (payload.value.Text? || payload.value.Msg?)
    ensures payload.Some? && payload.value.Text? ==>
      c == SimpleMessageCall(payload.value.text, None, None, None, None, None, None)
    ensures payload.Some? && payload.value.Msg? ==>
      var m := payload.value.message;
      && c.text == m.text && c.style == m.style && c.bleed == m.bleed
      && c.title == m.title && c.titleColor == m.titleColor
      && c.titleStyle == m.titleStyle && c.titleBleed == m.titleBleed
    ensures c.CardCall? ==>
      && c.summary == summary
      && c.card == (if payload.Some? && payload.value.Card? then Some(payload.value.card) else None)
  {
    match payload
    case Some(Text(s)) => SimpleMessageCall(s, None, None, None, None, None, None)
    case Some(Msg(m)) => SimpleMessageCall(m.text, m.style, m.bleed, m.title, m.titleColor, m.titleStyle, m.titleBleed)
    case Some(Card(c)) => CardCall(Some(c), summary)
    case None => CardCall(None, summary)
  }

  /** A row of the conversation-token table: its surrogate id and its conversation. */
  datatype TokenBinding = TokenBinding(tokenId: TokenId, referenceId: ReferenceId)

  /** What resolving a token yields. */
  datatype Resolved = Resolved(conversationTeamsId: ConversationTeamsId, referenceId: ReferenceId, tokenId: TokenId)

  /** A row of the message table. */
  datatype Row = Row(
    tokenId: TokenId,
    referenceId: ReferenceId,
    activityId: ActivityId,
    updatedAt: Option<Timestamp>,
    deletedAt: Option<Timestamp>)

  /** What looking a message up for an update or a delete yields. */
  datatype MessageView = MessageView(conversationTeamsId: ConversationTeamsId, activityId: ActivityId, deletedAt: Option<Timestamp>)

  /** The state of one message id. */
  datatype Lifecycle = Absent | Active | Deleted

  /** What the remote side did with one transport call. */
  datatype TransportOutcome =
    | Accepted(activityId: ActivityId)  // success; for a delete the id is not read
    | Rejected(body: ErrorBody)         // an ErrorResponseException with the remote detail
    | Unreachable                       // any other failure (connection, timeout)

  datatype TransportRequest =
    | SendToConversation(conversationTeamsId: ConversationTeamsId, activity: CardHelper.Activity)
    | UpdateActivity(conversationTeamsId: ConversationTeamsId, activityId: ActivityId, activity: CardHelper.Activity)
    | DeleteActivity(conversationTeamsId: ConversationTeamsId, activityId: ActivityId)

  datatype TransportCall = TransportCall(request: TransportRequest, outcome: TransportOutcome) {
    /** A send that the remote side accepted. */
    predicate IsDeliveredSend() {
      request.SendToConversation? && outcome.Accepted?
    }
  }

  datatype Detail = Reason(text: string) | Remote(body: ErrorBody)

  /** The HTTP answers of the service. */
  datatype Response =
    | MessageCreated(messageId: MessageId)
    | MessageDeleted(messageId: MessageId, deletedAt: Timestamp)
    | MessagePatched(messageId: MessageId, updatedAt: Timestamp)
    | HttpError(code: nat, detail: Detail)  // an HTTPException raised by a handler
    | ServerError                            // an exception nobody caught

  /**
   * Row `id` records the delivered send at `origin[id]`: a send to the row's
   * conversation that returned the row's activity id, and `recordedAs` points back.
   */
  ghost predicate RecordsDelivery(
    messages: map<MessageId, Row>, references: map<ReferenceId, ConversationTeamsId>,
    transport: seq<TransportCall>, origin: map<MessageId, nat>, recordedAs: map<nat, MessageId>, id: MessageId)
  {
    && id in messages && messages[id].referenceId in references
    && id in origin && origin[id] < |transport|
    && transport[origin[id]].IsDeliveredSend()
    && transport[origin[id]].request.conversationTeamsId == references[messages[id].referenceId]
    && transport[origin[id]].outcome.activityId == messages[id].activityId
    && origin[id] in recordedAs && recordedAs[origin[id]] == id
  }

  /**
   * The message table accounts for the transport's history: ids are below
   * `nextId`, each row records its own delivered send, and each delivered
   * send is recorded by a row.
   */
  ghost predicate LedgerAccounts(
    messages: map<MessageId, Row>, nextId: MessageId, references: map<ReferenceId, ConversationTeamsId>,
    transport: seq<TransportCall>, origin: map<MessageId, nat>, recordedAs: map<nat, MessageId>)
  {
    && (forall id | id in messages :: id < nextId)
    && origin.Keys == messages.Keys
    && (forall id | id in messages :: RecordsDelivery(messages, references, transport, origin, recordedAs, id))
    && (forall k | 0 <= k < |transport| && transport[k].IsDeliveredSend() ::
          k in recordedAs && recordedAs[k] in messages && origin[recordedAs[k]] == k)
  }

  /** A transport call that is not an accepted send leaves the accounting intact. */
  lemma LedgerAfterOtherCall(
    messages: map<MessageId, Row>, nextId: MessageId, references: map<ReferenceId, ConversationTeamsId>,
    transport: seq<TransportCall>, origin: map<MessageId, nat>, recordedAs: map<nat, MessageId>,
    call: TransportCall)
    requires LedgerAccounts(messages, nextId, references, transport, origin, recordedAs)
    requires !call.IsDeliveredSend()
    ensures LedgerAccounts(messages, nextId, references, transport + [call], origin, recordedAs)
  {
    var after := transport + [call];
    forall id | id in messages
      ensures RecordsDelivery(messages, references, after, origin, recordedAs, id)
    {
      assert RecordsDelivery(messages, references, transport, origin, recordedAs, id);
      assert after[origin[id]] == transport[origin[id]];
    }
    forall k | 0 <= k < |after| && after[k].IsDeliveredSend()
      ensures k in recordedAs && recordedAs[k] in messages && origin[recordedAs[k]] == k
    {
      assert k < |transport| && after[k] == transport[k];
    }
  }

  /** Changing a row's timestamps keeps the accounting intact. */
  lemma LedgerAfterRowEdit(
    messages: map<MessageId, Row>, nextId: MessageId, references: map<ReferenceId, ConversationTeamsId>,
    transport: seq<TransportCall>, origin: map<MessageId, nat>, recordedAs: map<nat, MessageId>,
    id: MessageId, row: Row)
    requires LedgerAccounts(messages, nextId, references, transport, origin, recordedAs)
    requires id in messages
    requires row.referenceId == messages[id].referenceId && row.activityId == messages[id].activityId
    ensures LedgerAccounts(messages[id := row], nextId, references, transport, origin, recordedAs)
  {
    var after := messages[id := row];
    forall other | other in after
      ensures RecordsDelivery(after, references, transport, origin, recordedAs, other)
    {
      assert RecordsDelivery(messages, references, transport, origin, recordedAs, other);
    }
  }

  /**
   * Recording an accepted send under the fresh id `nextId`, with the
   * conversation and activity id of that send, keeps the accounting intact.
   */
  lemma LedgerAfterDelivery(
    messages: map<MessageId, Row>, nextId: MessageId, references: map<ReferenceId, ConversationTeamsId>,
    transport: seq<TransportCall>, origin: map<MessageId, nat>, recordedAs: map<nat, MessageId>,
    call: TransportCall, row: Row)
    requires LedgerAccounts(messages, nextId, references, transport, origin, recordedAs)
    requires call.IsDeliveredSend()
    requires row.referenceId in references
    requires references[row.referenceId] == call.request.conversationTeamsId
    requires row.activityId == call.outcome.activityId
    ensures nextId !in messages
    ensures LedgerAccounts(messages[nextId := row], nextId + 1, references, transport + [call],
                           origin[nextId := |transport|], recordedAs[|transport| := nextId])
  {
    var m, t := messages[nextId := row], transport + [call];
    var o, r := origin[nextId := |transport|], recordedAs[|transport| := nextId];
    forall id | id in m
      ensures RecordsDelivery(m, references, t, o, r, id)
    {
      if id != nextId {
        assert RecordsDelivery(messages, references, transport, origin, recordedAs, id);
        assert t[origin[id]] == transport[origin[id]];
      }
    }
    forall k | 0 <= k < |t| && t[k].IsDeliveredSend()
      ensures k in r && r[k] in m && o[r[k]] == k
    {
      if k < |transport| {
        assert t[k] == transport[k];
        assert RecordsDelivery(messages, references, transport, origin, recordedAs, recordedAs[k]);
      }
    }
  }

  /** `after` has the same rows as `before`, each with the same activity id and tombstone. */
  predicate KeepsActivitiesAndTombstones(before: map<MessageId, Row>, after: map<MessageId, Row>) {
    && after.Keys == before.Keys
    && forall id | id in before ::
         after[id].activityId == before[id].activityId && after[id].deletedAt == before[id].deletedAt
  }

  /** Any table keeps its own activity ids and tombstones. */
  lemma KeepsActivitiesAndTombstonesReflexive(messages: map<MessageId, Row>)
    ensures KeepsActivitiesAndTombstones(messages, messages)
  {
  }

  /** Setting `updated_at` on one row keeps every activity id and tombstone. */
  lemma UpdatedAtKeepsActivitiesAndTombstones(messages: map<MessageId, Row>, id: MessageId, now: Timestamp)
    requires id in messages
    ensures KeepsActivitiesAndTombstones(messages, messages[id := messages[id].(updatedAt := Some(now))])
  {
  }

  /** The conversation registry, the message ledger, and the transport's history. */
  class MessageLifecycle {
    /** The card helper, seen as an opaque total function of its arguments. */
    const render: CardBuildCall -> CardHelper.Activity
    /** Conversation references: surrogate id to platform conversation id. */
    const references: map<ReferenceId, ConversationTeamsId>
    /** Conversation tokens and what each is bound to. */
    const tokens: map<Token, TokenBinding>

    /** The message table. */
    var messages: map<MessageId, Row>
    /** The id the next inserted message receives. */
    var nextMessageId: MessageId
    /** Every transport call made, in order, with its outcome. */
    var transport: seq<TransportCall>

    /** For each message, the index of the delivered send it records. */
    ghost var origin: map<MessageId, nat>
    /** For each delivered send, the message that records it. */
    ghost var recordedAs: map<nat, MessageId>

    /**
     * Ids are fresh, every row points at a known conversation, and the ledger
     * holds a row exactly for each send the transport accepted.
     */
    ghost predicate Valid()
      reads this
    {
      LedgerAccounts(messages, nextMessageId, references, transport, origin, recordedAs)
    }

    constructor (render: CardBuildCall -> CardHelper.Activity,
                 references: map<ReferenceId, ConversationTeamsId>,
                 tokens: map<Token, TokenBinding>)
      ensures Valid()
      ensures this.render == render && this.references == references && this.tokens == tokens
      ensures messages == map[] && transport == []
    {
      this.render := render;
      this.references := references;
      this.tokens := tokens;
      messages := map[];
      nextMessageId := 0;
      transport := [];
      origin := map[];
      recordedAs := map[];
    }

    /** The token's binding joined with its conversation reference. */
    function Resolve(token: Token): (ids: Option<Resolved>)
      ensures ids.Some? <==> token in tokens && tokens[token].referenceId in references
      ensures ids.Some? ==>
        && ids.value.tokenId == tokens[token].tokenId
        && ids.value.referenceId == tokens[token].referenceId
        && ids.value.conversationTeamsId == references[ids.value.referenceId]
    {
      if token in tokens && tokens[token].referenceId in references then
        var b := tokens[token];
        Some(Resolved(references[b.referenceId], b.referenceId, b.tokenId))
      else
        None
    }

    /** The message row joined with its conversation reference. */
    function LookupMessage(id: MessageId): (v: Option<MessageView>)
      reads this
      ensures v.Some? <==> id in messages && messages[id].referenceId in references
      ensures v.Some? ==>
        && v.value.conversationTeamsId == references[messages[id].referenceId]
        && v.value.activityId == messages[id].activityId
        && v.value.deletedAt == messages[id].deletedAt
    {
      if id in messages && messages[id].referenceId in references then
        var row := messages[id];
        Some(MessageView(references[row.referenceId], row.activityId, row.deletedAt))
      else
        None
    }

    /** Where a message id stands in its lifecycle. */
    function StateOf(id: MessageId): Lifecycle
      reads this
    {
      if id !in messages then Absent
      else if messages[id].deletedAt.Some? then Deleted
      else Active
    }

    /** In a valid ledger every row is found by a lookup, and the lookup agrees with its state. */
    lemma LookupFindsEveryRow(id: MessageId)
      requires Valid()
      ensures LookupMessage(id).Some? <==> StateOf(id) != Absent
      ensures LookupMessage(id).Some? ==> (LookupMessage(id).value.deletedAt.Some? <==> StateOf(id) == Deleted)
    {
    }

    /** In a valid ledger, every row carries the activity id of a send to its conversation that the transport accepted. */
    lemma RowsComeFromDeliveries(id: MessageId)
      requires Valid() && id in messages
      ensures exists k | 0 <= k < |transport| ::
        && transport[k].IsDeliveredSend()
        && transport[k].request.conversationTeamsId == references[messages[id].referenceId]
        && transport[k].outcome.activityId == messages[id].activityId
    {
      assert RecordsDelivery(messages, references, transport, origin, recordedAs, id);
      var k := origin[id];
      assert 0 <= k < |transport|;
    }

    /** In a valid ledger, every send the transport accepted is recorded by a row with the returned activity id. */
    lemma DeliveriesAreRecorded(k: nat)
      requires Valid() && k < |transport| && transport[k].IsDeliveredSend()
      ensures exists id | id in messages ::
        && messages[id].activityId == transport[k].outcome.activityId
        && references[messages[id].referenceId] == transport[k].request.conversationTeamsId
    {
      var id := recordedAs[k];
      assert RecordsDelivery(messages, references, transport, origin, recordedAs, id);
    }

    /**
     * What a send does: an unknown token fails with 400 before any transport
     * call; otherwise the built card goes to the transport once, and a row
     * is inserted, under a fresh id and with the activity id the transport
     * returned, only when the send was accepted.
     */
    twostate predicate SendPayloadEffect(
      token: Token, payload: Option<Payload>, summary: string, outcome: TransportOutcome, resp: Response)
      reads this
    {
      var ids := Resolve(token);
      if ids.None? then
        && resp == HttpError(400, Reason("invalid conversation_token"))
        && messages == old(messages) && nextMessageId == old(nextMessageId)
        && transport == old(transport)
      else
        var call := SendToConversation(ids.value.conversationTeamsId, render(BuildCallFor(payload, summary)));
        && transport == old(transport) + [TransportCall(call, outcome)]
        && match outcome
           case Accepted(activityId) =>
             && old(nextMessageId) !in old(messages)
             && messages == old(messages)[old(nextMessageId) :=
                  Row(ids.value.tokenId, ids.value.referenceId, activityId, None, None)]
             && resp == MessageCreated(old(nextMessageId))
           case Rejected(body) =>
             && messages == old(messages) && nextMessageId == old(nextMessageId)
             && resp == HttpError(400, Remote(body))
           case Unreachable =>
             && messages == old(messages) && nextMessageId == old(nextMessageId)
             && resp == ServerError
    }

    /** Sends a payload to the conversation of `token` and records the sent message. */
    method SendPayload(token: Token, payload: Option<Payload>, summary: string, outcome: TransportOutcome)
      returns (resp: Response)
      requires Valid()
      modifies this
      ensures Valid()
      ensures SendPayloadEffect(token, payload, summary, outcome, resp)
    {
      var ids := Resolve(token);
      if ids.None? {
        return HttpError(400, Reason("invalid conversation_token"));
      }
      var builtCard := render(BuildCallFor(payload, summary));
      var call := TransportCall(SendToConversation(ids.value.conversationTeamsId, builtCard), outcome);
      var k := |transport|;
      match outcome
      case Rejected(body) =>
        LedgerAfterOtherCall(messages, nextMessageId, references, transport, origin, recordedAs, call);
        transport := transport + [call];
        return HttpError(400, Remote(body));
      case Unreachable =>
        LedgerAfterOtherCall(messages, nextMessageId, references, transport, origin, recordedAs, call);
        transport := transport + [call];
        return ServerError;
      case Accepted(activityId) =>
        var id := nextMessageId;
        var row := Row(ids.value.tokenId, ids.value.referenceId, activityId, None, None);
        LedgerAfterDelivery(messages, id, references, transport, origin, recordedAs, call, row);
        transport := transport + [call];
        messages := messages[id := row];
        nextMessageId := nextMessageId + 1;
        origin := origin[id := k];
        recordedAs := recordedAs[k := id];
        return MessageCreated(id);
    }

    /** The send route taking any payload: select the payload of the validated request, then send. */
    method PostMessageOfAnyType(post: SendRequest, outcome: TransportOutcome) returns (resp: Response)
      requires Valid()
      requires post.fields.ExactlyOne()  // the request model only exists once its validator passed
      modifies this
      ensures Valid()
      ensures SendPayloadEffect(post.conversationToken, Select(post.fields), post.summary, outcome, resp)
    {
      resp := SendPayload(post.conversationToken, Select(post.fields), post.summary, outcome);
    }

    /** The plain-text send route. */
    method SendTextMessage(conversationToken: Token, text: string, outcome: TransportOutcome) returns (resp: Response)
      requires Valid()
      modifies this
      ensures Valid()
      ensures SendPayloadEffect(conversationToken, Some(Text(text)), "", outcome, resp)
    {
      resp := SendPayload(conversationToken, Some(Text(text)), "", outcome);
    }

    /** The styled-message send route. */
    method SendSimpleMessage(conversationToken: Token, message: TextMessage, outcome: TransportOutcome)
      returns (resp: Response)
      requires Valid()
      modifies this
      ensures Valid()
      ensures SendPayloadEffect(conversationToken, Some(Msg(message)), "", outcome, resp)
    {
      resp := SendPayload(conversationToken, Some(Msg(message)), "", outcome);
    }

    /** The card send route. */
    method SendAdaptiveCard(conversationToken: Token, card: CardHelper.JsonObject, summary: string, outcome: TransportOutcome)
      returns (resp: Response)
      requires Valid()
      modifies this
      ensures Valid()
      ensures SendPayloadEffect(conversationToken, Some(Card(card)), summary, outcome, resp)
    {
      resp := SendPayload(conversationToken, Some(Card(card)), summary, outcome);
    }

    /**
     * Deletes a message: an unknown id fails with 400 and a tombstoned one
     * with 410, both without a transport call; otherwise the transport
     * deletes the stored activity and, if it succeeds, the row is tombstoned.
     */
    method DeleteMessage(messageId: MessageId, outcome: TransportOutcome, now: Timestamp) returns (resp: Response)
      requires Valid()
      modifies this
      ensures Valid()
      ensures nextMessageId == old(nextMessageId)
      ensures old(LookupMessage(messageId)).None? ==>
        && resp == HttpError(400, Reason("invalid message_id"))
        && messages == old(messages) && transport == old(transport)
      ensures old(LookupMessage(messageId)).Some? && old(LookupMessage(messageId)).value.deletedAt.Some? ==>
        && resp == HttpError(410, Reason("message_id already deleted"))
        && messages == old(messages) && transport == old(transport)
      ensures old(LookupMessage(messageId)).Some? && old(LookupMessage(messageId)).value.deletedAt.None? ==>
        var v := old(LookupMessage(messageId)).value;
        && transport == old(transport) + [TransportCall(DeleteActivity(v.conversationTeamsId, v.activityId), outcome)]
        && (outcome.Accepted? ==>
              && messages == old(messages)[messageId := old(messages)[messageId].(deletedAt := Some(now))]
              && resp == MessageDeleted(messageId, now))
        && (!outcome.Accepted? ==> messages == old(messages) && resp == ServerError)
      ensures old(StateOf(messageId)) == Deleted ==> messages == old(messages)
      ensures StateOf(messageId) == Deleted <==> old(StateOf(messageId)) == Deleted || resp.MessageDeleted?
    {
      var message := LookupMessage(messageId);
      if message.None? {
        return HttpError(400, Reason("invalid message_id"));
      }
      if message.value.deletedAt.Some? {
        return HttpError(410, Reason("message_id already deleted"));
      }
      var call := TransportCall(DeleteActivity(message.value.conversationTeamsId, message.value.activityId), outcome);
      LedgerAfterOtherCall(messages, nextMessageId, references, transport, origin, recordedAs, call);
      transport := transport + [call];
      if !outcome.Accepted? {
        return ServerError;
      }
      var tombstone := messages[messageId].(deletedAt := Some(now));
      LedgerAfterRowEdit(messages, nextMessageId, references, transport, origin, recordedAs, messageId, tombstone);
      messages := messages[messageId := tombstone];
      return MessageDeleted(messageId, now);
    }

    /**
     * What an update of a validated request does: an unknown id, a tombstoned
     * message and a payload that selects nothing each fail with 400, in that
     * order and without a transport call; otherwise the rebuilt card goes to
     * the transport against the stored activity id, and only an accepted
     * update sets the row's `updated_at`.
     */
    twostate predicate PatchActivityEffect(
      messageId: MessageId, payload: Option<Payload>, summary: string,
      outcome: TransportOutcome, now: Timestamp, resp: Response)
      reads this
    {
      var found := old(LookupMessage(messageId));
      if found.None? then
        && resp == HttpError(400, Reason("invalid message_id"))
        && messages == old(messages) && transport == old(transport)
      else if found.value.deletedAt.Some? then
        && resp == HttpError(400, Reason("message deleted, can't be updated"))
        && messages == old(messages) && transport == old(transport)
      else if payload.None? then
        && resp == HttpError(400, Reason("invalid payload, neither a text, a message nor a card"))
        && messages == old(messages) && transport == old(transport)
      else
        var call := UpdateActivity(found.value.conversationTeamsId, found.value.activityId,
                                   render(BuildCallFor(payload, summary)));
        && transport == old(transport) + [TransportCall(call, outcome)]
        && match outcome
           case Accepted(_) =>
             && messages == old(messages)[messageId := old(messages)[messageId].(updatedAt := Some(now))]
             && resp == MessagePatched(messageId, now)
           case Rejected(body) =>
             && messages == old(messages)
             && resp == HttpError(400, Remote(body))
           case Unreachable =>
             && messages == old(messages)
             && resp == ServerError
    }

    /**
     * Updates a message from a validated request: an unknown id, a tombstoned
     * message and a payload that selects nothing each fail with 400, without
     * a transport call; otherwise the transport updates the stored activity
     * and, if it succeeds, only `updated_at` changes.
     */
    method PatchActivity(msgToPatch: PatchRequest, outcome: TransportOutcome, now: Timestamp) returns (resp: Response)
      requires Valid()
      requires msgToPatch.fields.ExactlyOne()  // the request model only exists once its validator passed
      modifies this
      ensures Valid()
      ensures PatchActivityEffect(msgToPatch.messageId, Select(msgToPatch.fields), msgToPatch.summary, outcome, now, resp)
      ensures KeepsActivitiesAndTombstones(old(messages), messages)
      ensures nextMessageId == old(nextMessageId)
    {
      KeepsActivitiesAndTombstonesReflexive(messages);
      var activityDetails := LookupMessage(msgToPatch.messageId);
      if activityDetails.None? {
        return HttpError(400, Reason("invalid message_id"));
      }
      if activityDetails.value.deletedAt.Some? {
        return HttpError(400, Reason("message deleted, can't be updated"));
      }
      var payload := Select(msgToPatch.fields);
      if payload.None? {
        return HttpError(400, Reason("invalid payload, neither a text, a message nor a card"));
      }
      var builtCard := render(BuildCallFor(payload, msgToPatch.summary));
      var call := TransportCall(
        UpdateActivity(activityDetails.value.conversationTeamsId, activityDetails.value.activityId, builtCard), outcome);
      LedgerAfterOtherCall(messages, nextMessageId, references, transport, origin, recordedAs, call);
      transport := transport + [call];
      match outcome
      case Rejected(body) =>
        return HttpError(400, Remote(body));
      case Unreachable =>
        return ServerError;
      case Accepted(_) =>
        var id := msgToPatch.messageId;
        var updated := messages[id].(updatedAt := Some(now));
        LedgerAfterRowEdit(messages, nextMessageId, references, transport, origin, recordedAs, id, updated);
        UpdatedAtKeepsActivitiesAndTombstones(messages, id, now);
        messages := messages[id := updated];
        return MessagePatched(id, now);
    }
  }
}
