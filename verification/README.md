# Teams Notifier activity-api: message lifecycle and card builder

This project models two parts of the activity API, a relay that posts, updates
and deletes messages in a Microsoft Teams conversation on behalf of a bot.

- **The lifecycle manager** (`app.dfy`, module `ActivityApi`). The class
  `MessageLifecycle` holds the conversation registry (tokens bound to
  conversation references), the message ledger (`messages`, a map from message
  id to row with `updated_at` and `deleted_at`), and the history of transport
  calls with the outcome the remote side gave each one. Each message id is
  *absent* (no row), *active* (a row, `deleted_at` null) or *deleted* (a
  tombstone row). The send, update and delete handlers are methods on the
  class. Their contracts give the order of checks, the status and detail of
  every error, which errors leave the ledger and the transport untouched, and
  the new ledger after a call. The class invariant `Valid` says the ledger
  holds a row exactly for each send the transport accepted, carrying the
  activity id that the transport returned.
- **The card builder** (`card_helper.dfy`, module `CardHelper`). It covers
  text blocks whose optional styling keys appear exactly when given, an
  ordered card builder with the fixed Adaptive Card 1.5 envelope, and the two
  activity shapes it returns: plain text, or a single card attachment.
- `wrappers.dfy` (module `Wrappers`) holds `Option`, `Result` and Python's
  truthiness of an optional string.

Modelling choices:

- The transport (`TeamsInterface`) is not called. Every operation that would
  call it takes a `TransportOutcome` parameter: `Accepted(activityId)`,
  `Rejected(body)` (an `ErrorResponseException`) or `Unreachable` (any other
  exception). The call and its outcome are appended to `transport`.
- app.py passes keyword arguments (`style`, `bleed`, `title_style`,
  `title_bleed`, and a summary) that `simple_message` and `card` in
  card_helper.py do not declare. So in the lifecycle model, card building is
  an opaque total function, `render`, applied to the arguments of the call
  (`CardBuildCall`). The card helper itself is modelled as written.
- `NOW()` is the `now` parameter. The database's random message ids are
  modelled by a counter, `nextMessageId`, so every new id is fresh.
- A request model only exists once its validator has passed; otherwise the
  framework answers 422 before any handler runs. So the validators are
  functions whose `Failure` is that 422 answer, and the handlers that take a
  request model require a validated one. An exception nobody catches is
  answered with 500 (`ServerError`).

Behaviour of the code worth noting:

- `message or text or card` returns its last operand as it is. So an empty
  card `{}` that passed validation IS selected, and an update with it goes
  ahead. Only an empty text selects nothing. In the update handler that gives
  400 "invalid payload". In the any-type send handler, the nothing is handed
  to the card branch (`CardCall(None, summary)`) and sent.
- `delete_message` does not catch transport errors. A rejected or failed
  delete is therefore a 500, and the row is not tombstoned.
- A repeated delete answers 410 with the fixed detail "message_id already
  deleted".
- `updated_at` is whatever the clock says at the update; nothing compares it
  with the previous value.

## Model

| member | source | states |
|---|---|---|
| `ActivityApi.SendRequest.CheckThatOnlyOneMessageTypeIsFilled` | app.py:198-202 | The send request is accepted if and only if exactly one of message, text and card is non-None; otherwise it fails with "One and only one of message, text, or card must be filled". |
| `ActivityApi.PatchRequest.CheckThatOnlyOneMessageTypeIsFilled` | app.py:314-318 | The same rule for the update request, with its lower-case message. |
| `ActivityApi.Select` | app.py:217 | `message or text or card` (also app.py:357): a message always wins; with no message, a non-empty text is selected; with neither, a present card is selected as it is, even when empty. Conversely a message, a text or a card result comes only from that field under those conditions, and the result is None exactly when there is no message, no non-empty text and no card. |
| `ActivityApi.PayloadFields.FilledCount` | app.py:200 | The count of filled fields is at most 3, is 0 exactly when all three are missing, and is 1 exactly when exactly one is filled, so the validator's counting test is the exactly-one rule. |
| `ActivityApi.BuildCallFor` | app.py:140-154 | The `isinstance` dispatch (also app.py:359-372, where nothing selected is the 400 that `PatchActivity` answers first): a text goes to `simple_message` with no styling; a message goes with its text, style, bleed, title, title colour, title style and title bleed, and no summary; anything else (a card, or nothing) goes to `card` with that card or None and the request's summary. |
| `ActivityApi.SelectValidated` | app.py:357 | On a validated request, the selection is the filled field, except that an empty text selects None; an empty card is still selected. |
| `ActivityApi.MessageLifecycle.Resolve` | app.py:124-133 | A token resolves if and only if it is bound and its conversation reference exists; the result carries the binding's token id, reference id and that reference's conversation id. |
| `ActivityApi.MessageLifecycle.LookupMessage` | app.py:262-270 | A message is found if and only if its row exists and joins a conversation reference; the view carries the conversation id, the stored activity id and `deleted_at`. |
| `ActivityApi.MessageLifecycle.LookupFindsEveryRow` | app.py:334-344 | In a valid ledger the lookup finds exactly the non-absent ids, and it reports a tombstone exactly for deleted ones. |
| `ActivityApi.MessageLifecycle.RowsComeFromDeliveries` | app.py:156-179 | In a valid ledger every row's activity id was returned by a send to that row's conversation that the transport accepted. |
| `ActivityApi.MessageLifecycle.DeliveriesAreRecorded` | app.py:156-179 | In a valid ledger every send the transport accepted is recorded by a row with the returned activity id and that conversation. |
| `ActivityApi.MessageLifecycle.SendPayload` | app.py:121-183 | Unknown token: 400 "invalid conversation_token", no transport call, ledger unchanged. Otherwise exactly one send of the built card to the resolved conversation. If accepted: one new row under a fresh id, with the binding's token and reference ids and exactly the returned activity id, answered 201 with that id. If rejected: 400 with the remote detail. Any other failure: 500. Neither failure adds a row, and no path that adds no row moves the next message id. `Valid` is kept. |
| `ActivityApi.MessageLifecycle.PostMessageOfAnyType` | app.py:186-219 | Takes a validated request and behaves as `SendPayload` on the selected payload (`message or text or card`) and the request's summary. |
| `ActivityApi.MessageLifecycle.SendTextMessage` | app.py:222-228 | Behaves as `SendPayload` with the text and an empty summary. |
| `ActivityApi.MessageLifecycle.SendSimpleMessage` | app.py:231-240 | Behaves as `SendPayload` with the styled message and an empty summary. |
| `ActivityApi.MessageLifecycle.SendAdaptiveCard` | app.py:243-253 | Behaves as `SendPayload` with the card and its summary. |
| `ActivityApi.MessageLifecycle.DeleteMessage` | app.py:256-299 | Unknown id: 400 "invalid message_id". Tombstoned: 410 "message_id already deleted". Both make no transport call and change nothing. Otherwise one delete call with the row's conversation and stored activity id. On success only that row's `deleted_at` is set to `now`, answered 200 with the id and `now`. On any transport failure: 500 and no change. A deleted message stays as it was, and the next message id never moves. |
| `ActivityApi.MessageLifecycle.PatchActivity` | app.py:321-409 | Takes a validated request. Unknown id: 400 "invalid message_id". Tombstoned: 400 "message deleted, can't be updated". Nothing selected: 400 "invalid payload". In that order, and none of them calls the transport or changes anything. Otherwise one update call with the row's conversation, its existing activity id and the rebuilt card. On success only `updated_at` of that row is set, answered 201. Rejected: 400 with the remote detail. Other failure: 500. No call changes any row's activity id or `deleted_at`, or the set of rows, or the next message id. |
| `ActivityApi.LedgerAfterOtherCall` | app.py:283-286 | A transport call that is not an accepted send (a delete, an update, a failed send) keeps the ledger's accounting of delivered sends intact. |
| `ActivityApi.LedgerAfterRowEdit` | app.py:288-291 | Changing only a row's timestamps (`deleted_at`, `updated_at`; also app.py:395-401) keeps the accounting intact. |
| `ActivityApi.LedgerAfterDelivery` | app.py:156-179 | Inserting a row under a fresh id for an accepted send, with that send's conversation and returned activity id, keeps the accounting intact; the fresh id is not yet in use. |
| `CardHelper.Color.ValueInjective` | card_helper.py:14-21 | `TextBlock_Color`: `Value()` gives each member its schema string, and two members give the same string if and only if they are the same member. |
| `CardHelper.FontType.ValueInjective` | card_helper.py:24-26 | `TextBlock_FontType`: `Value()` gives each member its schema string, and two members give the same string if and only if they are the same member. |
| `CardHelper.TextStyle.ValueInjective` | card_helper.py:29-31 | `TextBlock_Style`: `Value()` gives each member its schema string, and two members give the same string if and only if they are the same member. |
| `CardHelper.FontSize.ValueInjective` | card_helper.py:34-39 | `TextBlock_FontSize`: `Value()` gives each member its schema string, and two members give the same string if and only if they are the same member. |
| `CardHelper.FontWeight.ValueInjective` | card_helper.py:42-45 | `TextBlock_FontWeight`: `Value()` gives each member its schema string, and two members give the same string if and only if they are the same member. |
| `CardHelper.Spacing.ValueInjective` | card_helper.py:48-55 | `TextBlock_Spacing`: `Value()` gives each member its schema string, and two members give the same string if and only if they are the same member. |
| `CardHelper.TextBlock.Build` | card_helper.py:121-122 | A block's document is a JSON object holding exactly the item it was built with. |
| `CardHelper.NewTextBlock` | card_helper.py:96-122 | A text block always has type "TextBlock", the given text and wrap true. Each of style, color, weight, size, spacing and fontType is a key if and only if that argument is given, with the enumeration's string value. There are no other keys. |
| `CardHelper.TextBlockItemDetermined` | card_helper.py:107-119 | The text-block description determines the document completely: two documents meeting it for the same arguments are equal. |
| `CardHelper.BuildAll` | card_helper.py:89 | The built body has one document per element, in insertion order. |
| `CardHelper.BaseCardBuilder.constructor` | card_helper.py:75-76 | A new builder has an empty body. |
| `CardHelper.BaseCardBuilder.Add` | card_helper.py:78-80 | Appends exactly one element, keeps the earlier ones, and returns the same builder. |
| `CardHelper.BaseCardBuilder.Build` | card_helper.py:82-90 | Always type "AdaptiveCard", the fixed schema URL and version "1.5", and nothing else besides the body. The body has as many entries as elements were added, each element's document in insertion order. |
| `CardHelper.SimpleMessage` | card_helper.py:130-158 | With a non-empty title: no text and exactly one card attachment. Its card has exactly two blocks: first the title with heading style, large size, bolder weight and a color key only when a color is given, then a plain block with the text. With a None or empty title: a message with the text and no attachments. |
| `CardHelper.Card` | card_helper.py:160-167 | The given card document becomes, unchanged, the only attachment of a message with no text. |

## Left out

- HTTP plumbing: the FastAPI application, lifespan, middleware, the redirect at `/`, and the server start-up. The response models appear only as the `Response` values.
- The health check: a database reachability probe.
- Decoding the remote error body as JSON, and formatting timestamps as strings. The body and the timestamps are opaque values. A remote body that is not JSON would make the handler fail with 500; that is not modelled.
- Failures of the database itself: an unreachable store, or a failed insert or update after a successful transport call. Every database step succeeds in the model.
- The `created_at` column: it is filled by a database default outside this code.
- Concurrent requests and transaction semantics. The model is sequential.
- The conversation registry (`tokens` and `references`) is fixed for the life of a `MessageLifecycle`. Tokens bound, or conversation references changed, while the service runs are not modelled. The rule that a row's conversation is the conversation its send went to relies on this, and so do `Valid`, `RowsComeFromDeliveries` and `DeliveriesAreRecorded`.
- `db.py` (the connection pool), `config.py` (settings and credentials) and the network side of `teams_interface.py` are not part of this model. The transport appears only through its outcomes. `str_to_activity` is unused by the handlers.
- `Container_ContainerStyle` is imported by app.py but not defined in card_helper.py. Container styles are carried as names.
- `print(card)` in `simple_message`, and `__str__` (JSON serialisation) of the builder and the text block.
- Inside botbuilder, the attachment is only its card content; the content type set by `CardFactory.adaptive_card` is not modelled.
- A JSON document here holds strings, booleans, objects and lists only. Numbers and null inside a caller's card are not represented.
- `TextBlock` objects are values: nothing changes them after construction. That `build()` returns the block's own dict, an alias, is not captured. Builder elements are text blocks, the only buildable element in the source.
