/**
 * The handler of an inbound Sheepy notification: a freshness check on the
 * timestamp header, a signature check, a filter on the notification type,
 * the order lookup and the order update for the new invoice status.
 *
 * `Reconcile` says, as a function of the inputs, what a call of `handle`
 * does: how it ends and which calls it makes on the order store. The
 * methods `Handle` and `UpdateOrder` issue those calls one by one.
 */
module CallbackHandler {
  import opened Php
  import opened Platform
  import opened SheepyConstants
  import opened ApiClient
  import opened WooCommerce

  /** The largest accepted age of a notification, in seconds. */
  const FreshnessWindow := 5
  const StatusChangedType := "invoice_status_changed"

  const NotePartiallyPaid := "Sheepy payment is paid partially. Please contact to merchant to refund or complete the payment."
  const NoteConfirming := "Sheepy payment is confirming."
  const NoteExpired := "Sheepy payment is expired."
  const NoteInvalid := "Sheepy payment is invalid."
  const NoteDone := "Sheepy invoice payment completed. Payment credited to your merchant account."
  const NoteRefundRequested := "Sheepy invoice payment refund requested."
  const NoteRefunded := "Sheepy invoice payment refunded."
  const NoteError := "Sheepy invoice payment error."

  /** Statuses that only get a note, and statuses that also mark the payment complete. */
  const NoteOnlyStatuses: set<string> := {StatusPartiallyPaid, StatusConfirming, StatusExpired, StatusInvalid}
  const CompletingStatuses: set<string> := {StatusDone, StatusRefundRequested, StatusRefunded, StatusError}

  /** The note added for each status that gets one. */
  const StatusNotes: map<string, string> := map[
    StatusPartiallyPaid := NotePartiallyPaid,
    StatusConfirming := NoteConfirming,
    StatusExpired := NoteExpired,
    StatusInvalid := NoteInvalid,
    StatusDone := NoteDone,
    StatusRefundRequested := NoteRefundRequested,
    StatusRefunded := NoteRefunded,
    StatusError := NoteError
  ]

  /** The handler's two fields, fixed by its constructor. */
  datatype SheepyCallbackHandler = SheepyCallbackHandler(requestTimestamp: string, requestSignature: string)

  /**
   * The constructor: each header, sanitized. A missing header reads as null,
   * which `sanitize_text_field` treats as "".
   */
  function NewCallbackHandler(p: Platform, timestampHeader: Option<string>, signatureHeader: Option<string>): SheepyCallbackHandler {
    SheepyCallbackHandler(p.sanitizeTextField(timestampHeader.GetOr("")), p.sanitizeTextField(signatureHeader.GetOr("")))
  }

  predicate CheckRequestLifetime(h: SheepyCallbackHandler, now: int) {
    var timestamp := IntCast(h.requestTimestamp);
    timestamp != 0 && timestamp <= now && now - timestamp <= FreshnessWindow
  }

  /**
   * The signature is recomputed over the sanitized request body; the time
   * signed is the timestamp field as the `int` parameter receives it.
   */
  predicate CheckRequestSignature(p: Platform, h: SheepyCallbackHandler, notificationUrl: string, rawBody: string, secret: string) {
    var signature := CreateSignature(p, IntCast(h.requestTimestamp), "POST", notificationUrl, p.sanitizeTextField(rawBody), secret);
    !IsEmptyString(h.requestSignature) && h.requestSignature == signature
  }

  datatype HandleError =
    | InvalidTimestamp
    | InvalidSignature
    | OrderNotFound(reference: Value)
    | UnsupportedStatus(status: string)
    /** The status field is null or an array: `updateOrder`'s `string` parameter raises a TypeError. */
    | StatusTypeError

  datatype HandleOutcome = Returned | Thrown(error: HandleError)

  function ErrorMessage(p: Platform, e: HandleError): string {
    match e
    case InvalidTimestamp => "Received Sheepy notification request has invalid timestamp or the request has expired."
    case InvalidSignature => "Received Sheepy notification request has invalid signature."
    case OrderNotFound(reference) =>
      "The Sheepy payment plugin was called to process an API notification but could not retrieve the order details for order_id "
      + p.escHtml(ToPhpString(reference)) + ". Cannot continue!"
    case UnsupportedStatus(status) =>
      "Sheepy API notification has not supported by current plugin status: " + p.escHtml(status) + ". Please contact Sheepy support team."
    case StatusTypeError => "updateOrder(): Argument #3 ($sheepyStatus) must be of type string"
  }

  /** The exception code: 400 for the two authentication failures, PHP's default 0 otherwise. */
  function ErrorCode(e: HandleError): int {
    if e == InvalidTimestamp || e == InvalidSignature then 400 else 0
  }

  /** How a call ends and the store calls it made, oldest first. */
  datatype Reconciliation = Reconciliation(outcome: HandleOutcome, calls: seq<StoreCall>)

  /** The calls the `switch` of `updateOrder` makes after the status update. */
  function StatusEffects(reference: Value, status: string): seq<StoreCall> {
    if status == StatusPartiallyPaid then [OrderNoteCall(reference, NotePartiallyPaid)]
    else if status == StatusConfirming then [OrderNoteCall(reference, NoteConfirming)]
    else if status == StatusExpired then [OrderNoteCall(reference, NoteExpired)]
    else if status == StatusInvalid then [OrderNoteCall(reference, NoteInvalid)]
    else if status == StatusDone then [PaymentCompleteCall(reference), OrderNoteCall(reference, NoteDone)]
    else if status == StatusRefundRequested then [PaymentCompleteCall(reference), OrderNoteCall(reference, NoteRefundRequested)]
    else if status == StatusRefunded then [PaymentCompleteCall(reference), OrderNoteCall(reference, NoteRefunded)]
    else if status == StatusError then [PaymentCompleteCall(reference), OrderNoteCall(reference, NoteError)]
    else []
  }

  /** What `updateOrder` does with the configured status map only; there is no fallback to the defaults. */
  function OrderUpdate(reference: Value, configured: map<string, string>, sheepyStatus: Value): Reconciliation {
    match StringArgument(sheepyStatus)
    case None => Reconciliation(Thrown(StatusTypeError), [])
    case Some(status) =>
      if status !in configured then Reconciliation(Thrown(UnsupportedStatus(status)), [])
      else Reconciliation(Returned, [StatusUpdateCall(reference, configured[status])] + StatusEffects(reference, status))
  }

  /** The invoice entry of a notification body: `$requestBody['data']['invoice']`. */
  function InvoiceOf(requestBody: Value): Value {
    Get(Get(requestBody, "data"), "invoice")
  }

  /** What `handle` does, given the clock, the request and the order references the store knows. */
  function Reconcile(p: Platform, h: SheepyCallbackHandler, now: int, rawBody: string, requestBody: Value,
                     notificationUrl: string, notificationKey: string, configured: map<string, string>,
                     orders: set<Value>): Reconciliation
  {
    if !CheckRequestLifetime(h, now) then Reconciliation(Thrown(InvalidTimestamp), [])
    else if !CheckRequestSignature(p, h, notificationUrl, rawBody, notificationKey) then Reconciliation(Thrown(InvalidSignature), [])
    else if !LooseEqualsText(Get(requestBody, "type"), StatusChangedType) then Reconciliation(Returned, [])
    else
      var orderId := Get(InvoiceOf(requestBody), "reference");
      if orderId !in orders then Reconciliation(Thrown(OrderNotFound(orderId)), [LookupCall(orderId)])
      else
        var update := OrderUpdate(orderId, configured, Get(InvoiceOf(requestBody), "status"));
        Reconciliation(update.outcome, [LookupCall(orderId)] + update.calls)
  }

  /** `updateOrder`: maps the status through the configured table and issues the order calls. */
  method UpdateOrder(reference: Value, configured: map<string, string>, sheepyStatus: Value, store: OrderStore)
    returns (outcome: HandleOutcome)
    modifies store
    ensures var update := OrderUpdate(reference, configured, sheepyStatus);
      outcome == update.outcome && store.calls == old(store.calls) + update.calls
  {
    var argument := StringArgument(sheepyStatus);
    if argument.None? {
      return Thrown(StatusTypeError);
    }
    var status := argument.value;
    if status !in configured {
      return Thrown(UnsupportedStatus(status));
    }
    store.UpdateStatus(reference, configured[status]);
    if status == StatusPartiallyPaid {
      store.AddOrderNote(reference, NotePartiallyPaid);
    } else if status == StatusConfirming {
      store.AddOrderNote(reference, NoteConfirming);
    } else if status == StatusExpired {
      store.AddOrderNote(reference, NoteExpired);
    } else if status == StatusInvalid {
      store.AddOrderNote(reference, NoteInvalid);
    } else if status == StatusDone {
      store.PaymentComplete(reference);
      store.AddOrderNote(reference, NoteDone);
    } else if status == StatusRefundRequested {
      store.PaymentComplete(reference);
      store.AddOrderNote(reference, NoteRefundRequested);
    } else if status == StatusRefunded {
      store.PaymentComplete(reference);
      store.AddOrderNote(reference, NoteRefunded);
    } else if status == StatusError {
      store.PaymentComplete(reference);
      store.AddOrderNote(reference, NoteError);
    }
    outcome := Returned;
  }

  /**
   * `handle`: `notificationUrl` and `configured` are what the gateway's
   * `notification_url()` and `get_option('order_states')` return.
   */
  method Handle(p: Platform, h: SheepyCallbackHandler, now: int, rawBody: string, requestBody: Value,
                notificationUrl: string, notificationKey: string, configured: map<string, string>, store: OrderStore)
    returns (outcome: HandleOutcome)
    modifies store
    ensures var r := Reconcile(p, h, now, rawBody, requestBody, notificationUrl, notificationKey, configured, store.orders);
      outcome == r.outcome && store.calls == old(store.calls) + r.calls
  {
    if !CheckRequestLifetime(h, now) {
      return Thrown(InvalidTimestamp);
    }
    if !CheckRequestSignature(p, h, notificationUrl, rawBody, notificationKey) {
      return Thrown(InvalidSignature);
    }
    if !LooseEqualsText(Get(requestBody, "type"), StatusChangedType) {
      return Returned;
    }
    var invoiceData := InvoiceOf(requestBody);
    var orderId := Get(invoiceData, "reference");
    var found := store.GetOrder(orderId);
    if !found {
      return Thrown(OrderNotFound(orderId));
    }
    outcome := UpdateOrder(orderId, configured, Get(invoiceData, "status"), store);
  }

  // ---------------------------------------------------------------------------
  // Verification

  /** The freshness window: ages 0 to 5 seconds pass, a zero timestamp, a future one or an older one fail. */
  lemma FreshnessBoundaries(h: SheepyCallbackHandler, now: int)
    ensures var ts := IntCast(h.requestTimestamp);
      && (CheckRequestLifetime(h, now) <==> ts != 0 && 0 <= now - ts <= FreshnessWindow)
      && (ts != 0 && now == ts ==> CheckRequestLifetime(h, now))
      && (ts != 0 && now == ts + 5 ==> CheckRequestLifetime(h, now))
      && (now == ts + 6 ==> !CheckRequestLifetime(h, now))
      && (now < ts ==> !CheckRequestLifetime(h, now))
  {
  }

  /** The signature check accepts exactly a non-empty header equal to the HMAC of time, "POST", URL and sanitized body. */
  lemma SignatureCheckSpec(p: Platform, h: SheepyCallbackHandler, url: string, rawBody: string, key: string)
    ensures CheckRequestSignature(p, h, url, rawBody, key) <==>
      && !IsEmptyString(h.requestSignature)
      && h.requestSignature == p.hmacSha256(key, IntToString(IntCast(h.requestTimestamp)) + "POST" + url + p.sanitizeTextField(rawBody))
  {
    StrToUpperPost();
  }

  /** Two bodies that sanitize alike get the same verdict: the signature binds only the sanitized body. */
  lemma SignatureBindsSanitizedBody(p: Platform, h: SheepyCallbackHandler, url: string, body1: string, body2: string, key: string)
    requires p.sanitizeTextField(body1) == p.sanitizeTextField(body2)
    ensures CheckRequestSignature(p, h, url, body1, key) == CheckRequestSignature(p, h, url, body2, key)
  {
  }

  /**
   * A notification signed by the sender's scheme at time `t`, received within
   * the window, passes both checks when sanitizing leaves its headers and body
   * unchanged.
   */
  lemma GenuineNotificationVerifies(p: Platform, t: int, now: int, url: string, rawBody: string, key: string)
    requires t != 0 && t <= now <= t + FreshnessWindow
    requires !IsEmptyString(CreateSignature(p, t, "POST", url, rawBody, key))
    requires p.sanitizeTextField(IntToString(t)) == IntToString(t)
    requires p.sanitizeTextField(CreateSignature(p, t, "POST", url, rawBody, key)) == CreateSignature(p, t, "POST", url, rawBody, key)
    requires p.sanitizeTextField(rawBody) == rawBody
    ensures var h := NewCallbackHandler(p, Some(IntToString(t)), Some(CreateSignature(p, t, "POST", url, rawBody, key)));
      CheckRequestLifetime(h, now) && CheckRequestSignature(p, h, url, rawBody, key)
  {
    IntCastOfIntToString(t);
  }

  /**
   * Even with a collision-free HMAC, a genuinely signed notification whose raw
   * body `sanitize_text_field` alters is rejected.
   */
  lemma GenuineButAlteredBodyRejected(p: Platform, t: int, url: string, rawBody: string, key: string)
    requires HmacInjective(p)
    requires p.sanitizeTextField(IntToString(t)) == IntToString(t)
    requires p.sanitizeTextField(CreateSignature(p, t, "POST", url, rawBody, key)) == CreateSignature(p, t, "POST", url, rawBody, key)
    requires p.sanitizeTextField(rawBody) != rawBody
    ensures !CheckRequestSignature(p, NewCallbackHandler(p, Some(IntToString(t)), Some(CreateSignature(p, t, "POST", url, rawBody, key))),
                                   url, rawBody, key)
  {
    IntCastOfIntToString(t);
    var prefix := IntToString(t) + StrToUpper("POST") + url;
    var received := prefix + p.sanitizeTextField(rawBody);
    var sent := prefix + rawBody;
    assert received != sent by {
      assert received[|prefix|..] == p.sanitizeTextField(rawBody);
      assert sent[|prefix|..] == rawBody;
    }
    assert p.hmacSha256(key, received) != p.hmacSha256(key, sent);
  }

  // ---------------------------------------------------------------------------
  // Reconciliation

  /**
   * Both checks come first: a failure throws with code 400 and makes no store
   * call, and a stale request is refused whatever its signature.
   */
  lemma AuthenticationComesFirst(p: Platform, h: SheepyCallbackHandler, now: int, rawBody: string, requestBody: Value,
                                 url: string, key: string, configured: map<string, string>, orders: set<Value>)
    ensures var r := Reconcile(p, h, now, rawBody, requestBody, url, key, configured, orders);
      && (!CheckRequestLifetime(h, now) ==> r == Reconciliation(Thrown(InvalidTimestamp), []))
      && (CheckRequestLifetime(h, now) && !CheckRequestSignature(p, h, url, rawBody, key) ==>
            r == Reconciliation(Thrown(InvalidSignature), []))
      && (r.calls != [] ==> CheckRequestLifetime(h, now) && CheckRequestSignature(p, h, url, rawBody, key))
      && (r.outcome.Thrown? && ErrorCode(r.outcome.error) == 400 ==> r.calls == [])
  {
  }

  /** A verified notification of another type returns normally without touching the store. */
  lemma OtherNotificationTypesIgnored(p: Platform, h: SheepyCallbackHandler, now: int, rawBody: string, requestBody: Value,
                                      url: string, key: string, configured: map<string, string>, orders: set<Value>)
    requires CheckRequestLifetime(h, now) && CheckRequestSignature(p, h, url, rawBody, key)
    requires !LooseEqualsText(Get(requestBody, "type"), StatusChangedType)
    ensures Reconcile(p, h, now, rawBody, requestBody, url, key, configured, orders) == Reconciliation(Returned, [])
  {
  }

  /** A verified status change for an unknown order throws after the lookup and changes nothing. */
  lemma UnknownOrderRejected(p: Platform, h: SheepyCallbackHandler, now: int, rawBody: string, requestBody: Value,
                             url: string, key: string, configured: map<string, string>, orders: set<Value>)
    requires CheckRequestLifetime(h, now) && CheckRequestSignature(p, h, url, rawBody, key)
    requires LooseEqualsText(Get(requestBody, "type"), StatusChangedType)
    requires Get(InvoiceOf(requestBody), "reference") !in orders
    ensures var orderId := Get(InvoiceOf(requestBody), "reference");
      Reconcile(p, h, now, rawBody, requestBody, url, key, configured, orders)
        == Reconciliation(Thrown(OrderNotFound(orderId)), [LookupCall(orderId)])
  {
  }

  /**
   * A status missing from the configured map throws before any order call,
   * even when the default table knows it.
   */
  lemma NoDefaultFallback(p: Platform, h: SheepyCallbackHandler, now: int, rawBody: string, requestBody: Value,
                          url: string, key: string, configured: map<string, string>, orders: set<Value>, status: string)
    requires CheckRequestLifetime(h, now) && CheckRequestSignature(p, h, url, rawBody, key)
    requires LooseEqualsText(Get(requestBody, "type"), StatusChangedType)
    requires Get(InvoiceOf(requestBody), "reference") in orders
    requires StringArgument(Get(InvoiceOf(requestBody), "status")) == Some(status)
    requires status !in configured
    ensures var orderId := Get(InvoiceOf(requestBody), "reference");
      Reconcile(p, h, now, rawBody, requestBody, url, key, configured, orders)
        == Reconciliation(Thrown(UnsupportedStatus(status)), [LookupCall(orderId)])
  {
  }

  /**
   * The per-status table: a note only, payment completion and then a note,
   * or nothing, with the note belonging to the status.
   */
  lemma StatusEffectTable(reference: Value, status: string)
    ensures status in NoteOnlyStatuses ==> StatusEffects(reference, status) == [OrderNoteCall(reference, StatusNotes[status])]
    ensures status in CompletingStatuses ==>
      StatusEffects(reference, status) == [PaymentCompleteCall(reference), OrderNoteCall(reference, StatusNotes[status])]
    ensures status !in NoteOnlyStatuses && status !in CompletingStatuses ==> StatusEffects(reference, status) == []
  {
  }

  /** A verified status change for a known order and a configured status: lookup, one status update, then the table's calls. */
  lemma AppliedNotificationTrace(p: Platform, h: SheepyCallbackHandler, now: int, rawBody: string, requestBody: Value,
                                 url: string, key: string, configured: map<string, string>, orders: set<Value>, status: string)
    requires CheckRequestLifetime(h, now) && CheckRequestSignature(p, h, url, rawBody, key)
    requires LooseEqualsText(Get(requestBody, "type"), StatusChangedType)
    requires Get(InvoiceOf(requestBody), "reference") in orders
    requires StringArgument(Get(InvoiceOf(requestBody), "status")) == Some(status)
    requires status in configured
    ensures var orderId := Get(InvoiceOf(requestBody), "reference");
      var r := Reconcile(p, h, now, rawBody, requestBody, url, key, configured, orders);
      && r.outcome == Returned
      && r.calls[..2] == [LookupCall(orderId), StatusUpdateCall(orderId, configured[status])]
      && (status in NoteOnlyStatuses ==> r.calls[2..] == [OrderNoteCall(orderId, StatusNotes[status])])
      && (status in CompletingStatuses ==> r.calls[2..] == [PaymentCompleteCall(orderId), OrderNoteCall(orderId, StatusNotes[status])])
      && (status !in NoteOnlyStatuses && status !in CompletingStatuses ==> |r.calls| == 2)
  {
    var orderId := Get(InvoiceOf(requestBody), "reference");
    StatusEffectTable(orderId, status);
  }

  /** The table's calls hold no lookup, no status update and at most one call of each other kind. */
  lemma EffectCounts(reference: Value, status: string, kind: CallKind)
    ensures Count(StatusEffects(reference, status), kind) <= 1
    ensures Count(StatusEffects(reference, status), Lookup) == 0
    ensures Count(StatusEffects(reference, status), StatusUpdate) == 0
    ensures status in CompletingStatuses ==> Count(StatusEffects(reference, status), PaymentComplete) == 1
  {
    var effects := StatusEffects(reference, status);
    StatusEffectTable(reference, status);
    if status in CompletingStatuses {
      CountPair(effects[0], effects[1], kind);
      CountPair(effects[0], effects[1], Lookup);
      CountPair(effects[0], effects[1], StatusUpdate);
      CountPair(effects[0], effects[1], PaymentComplete);
    } else if status in NoteOnlyStatuses {
      assert effects[1..] == [];
    }
  }

  /** One call makes at most one lookup, one status update, one payment completion and one note. */
  lemma AtMostOneCallOfEachKind(p: Platform, h: SheepyCallbackHandler, now: int, rawBody: string, requestBody: Value,
                                url: string, key: string, configured: map<string, string>, orders: set<Value>, kind: CallKind)
    ensures Count(Reconcile(p, h, now, rawBody, requestBody, url, key, configured, orders).calls, kind) <= 1
  {
    var r := Reconcile(p, h, now, rawBody, requestBody, url, key, configured, orders);
    var orderId := Get(InvoiceOf(requestBody), "reference");
    var update := OrderUpdate(orderId, configured, Get(InvoiceOf(requestBody), "status"));
    if r.calls == [] {
    } else if update.outcome == Returned && r.calls == [LookupCall(orderId)] + update.calls {
      var status := StringArgument(Get(InvoiceOf(requestBody), "status")).value;
      var head := [LookupCall(orderId), StatusUpdateCall(orderId, configured[status])];
      var effects := StatusEffects(orderId, status);
      assert r.calls == head + effects;
      CountAppend(head, effects, kind);
      CountPair(LookupCall(orderId), StatusUpdateCall(orderId, configured[status]), kind);
      EffectCounts(orderId, status, kind);
    } else {
      assert r.calls == [LookupCall(orderId)];
      assert r.calls[1..] == [];
    }
  }

  /**
   * Nothing deduplicates notifications: handling the same verified status
   * change twice issues its status update, and its payment completion, twice.
   */
  lemma ReplayRepeatsCalls(p: Platform, h: SheepyCallbackHandler, now: int, rawBody: string, requestBody: Value,
                           url: string, key: string, configured: map<string, string>, orders: set<Value>, status: string)
    requires CheckRequestLifetime(h, now) && CheckRequestSignature(p, h, url, rawBody, key)
    requires LooseEqualsText(Get(requestBody, "type"), StatusChangedType)
    requires Get(InvoiceOf(requestBody), "reference") in orders
    requires StringArgument(Get(InvoiceOf(requestBody), "status")) == Some(status)
    requires status in configured
    ensures var r := Reconcile(p, h, now, rawBody, requestBody, url, key, configured, orders);
      && Count(r.calls + r.calls, StatusUpdate) == 2
      && (status in CompletingStatuses ==> Count(r.calls + r.calls, PaymentComplete) == 2)
  {
    var r := Reconcile(p, h, now, rawBody, requestBody, url, key, configured, orders);
    var orderId := Get(InvoiceOf(requestBody), "reference");
    var head := [LookupCall(orderId), StatusUpdateCall(orderId, configured[status])];
    var effects := StatusEffects(orderId, status);
    assert r.calls == head + effects;
    EffectCounts(orderId, status, StatusUpdate);
    CountAppend(r.calls, r.calls, StatusUpdate);
    CountAppend(head, effects, StatusUpdate);
    CountPair(LookupCall(orderId), StatusUpdateCall(orderId, configured[status]), StatusUpdate);
    CountAppend(r.calls, r.calls, PaymentComplete);
    CountAppend(head, effects, PaymentComplete);
    CountPair(LookupCall(orderId), StatusUpdateCall(orderId, configured[status]), PaymentComplete);
  }
}
