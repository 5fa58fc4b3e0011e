/**
 * The WooCommerce payment gateway: the order-status settings (their merge on
 * save, the effective status the settings form shows, the validators), the
 * checkout's `process_payment`, and the notification entry point.
 */
module Gateway {
  import opened Php
  import opened Platform
  import opened SheepyConstants
  import opened ApiClient
  import opened WooCommerce
  import opened CallbackHandler

  const UserAgent := "WordPress Sheepy plugin v " + PluginVersion
  const InvoiceErrorMessage := "Sorry, but checkout with Sheepy does not appear to be working."
  const MissingOrderIdNotice := "The Sheepy payment plugin was called to process a payment but the order_id was missing. Cannot continue!"

  function UnknownOrderNotice(orderId: Value): string {
    "The Sheepy payment plugin was called to process a payment but could not retrieve the order details for order_id "
    + ToPhpString(orderId) + ". Cannot continue!"
  }

  /** `sanitize_text_field` on any value: an array becomes "", a scalar its string form, sanitized. */
  function SanitizeValue(p: Platform, v: Value): string {
    if v.Arr? then "" else p.sanitizeTextField(ToPhpString(v))
  }

  // ---------------------------------------------------------------------------
  // Order-status settings

  /** A Sheepy status whose requested value is set and sanitizes to a known WooCommerce status. */
  predicate Accepts(p: Platform, request: map<string, Value>, wcStatuses: set<string>, status: string) {
    status in request && request[status] != Null && SanitizeValue(p, request[status]) in wcStatuses
  }

  /** The accepted entries among `statuses`, each with its sanitized value. */
  function AcceptedUpdates(p: Platform, request: map<string, Value>, wcStatuses: set<string>, statuses: seq<string>): map<string, string> {
    map s | s in statuses && Accepts(p, request, wcStatuses, s) :: SanitizeValue(p, request[s])
  }

  /** The stored option after `save_order_states`: the accepted Sheepy statuses overwritten, the rest kept. */
  function MergeOrderStates(p: Platform, stored: map<string, string>, request: map<string, Value>, wcStatuses: set<string>): map<string, string> {
    stored + AcceptedUpdates(p, request, wcStatuses, SheepyStatuses)
  }

  /** One more status of the loop: overwriting it when accepted extends the merged prefix by one. */
  lemma MergeStep(p: Platform, stored: map<string, string>, request: map<string, Value>, wcStatuses: set<string>, i: nat)
    requires i < |SheepyStatuses|
    ensures var s := SheepyStatuses[i];
      var before := stored + AcceptedUpdates(p, request, wcStatuses, SheepyStatuses[..i]);
      var after := stored + AcceptedUpdates(p, request, wcStatuses, SheepyStatuses[..i + 1]);
      if Accepts(p, request, wcStatuses, s) then after == before[s := SanitizeValue(p, request[s])] else after == before
  {
    var s := SheepyStatuses[i];
    assert SheepyStatuses[..i + 1] == SheepyStatuses[..i] + [s];
    AcceptedUpdatesSnoc(p, request, wcStatuses, SheepyStatuses[..i], s);
  }

  /** Appending one status to the list adds its entry exactly when it is accepted. */
  lemma AcceptedUpdatesSnoc(p: Platform, request: map<string, Value>, wcStatuses: set<string>, statuses: seq<string>, s: string)
    ensures var before := AcceptedUpdates(p, request, wcStatuses, statuses);
      var after := AcceptedUpdates(p, request, wcStatuses, statuses + [s]);
      if Accepts(p, request, wcStatuses, s) then after == before[s := SanitizeValue(p, request[s])] else after == before
  {
  }

  /** Statuses outside the Sheepy set keep their stored entry, or stay absent. */
  lemma MergeOnlyTouchesSheepyKeys(p: Platform, stored: map<string, string>, request: map<string, Value>, wcStatuses: set<string>)
    ensures var merged := MergeOrderStates(p, stored, request, wcStatuses);
      forall k :: k !in SheepyStatusSet ==> (k in merged <==> k in stored) && (k in stored ==> merged[k] == stored[k])
  {
  }

  /** Every entry the merge changes or adds is a Sheepy status set to its sanitized request value, a WooCommerce status. */
  lemma MergeWritesValidValues(p: Platform, stored: map<string, string>, request: map<string, Value>, wcStatuses: set<string>)
    ensures var merged := MergeOrderStates(p, stored, request, wcStatuses);
      forall k :: k in merged && (k !in stored || merged[k] != stored[k]) ==>
        && k in SheepyStatusSet && k in request && request[k] != Null
        && merged[k] == SanitizeValue(p, request[k]) && merged[k] in wcStatuses
  {
  }

  /** A Sheepy status missing from the request, or requested as an unknown status, keeps its stored entry. */
  lemma MergeKeepsRejected(p: Platform, stored: map<string, string>, request: map<string, Value>, wcStatuses: set<string>)
    ensures var merged := MergeOrderStates(p, stored, request, wcStatuses);
      forall k :: !Accepts(p, request, wcStatuses, k) ==> (k in merged <==> k in stored) && (k in stored ==> merged[k] == stored[k])
    ensures var merged := MergeOrderStates(p, stored, request, wcStatuses);
      forall k :: k in SheepyStatusSet && Accepts(p, request, wcStatuses, k) ==> k in merged && merged[k] == SanitizeValue(p, request[k])
  {
  }

  /** Saving the same request twice stores what saving it once does. */
  lemma MergeIdempotent(p: Platform, stored: map<string, string>, request: map<string, Value>, wcStatuses: set<string>)
    ensures var once := MergeOrderStates(p, stored, request, wcStatuses);
      MergeOrderStates(p, once, request, wcStatuses) == once
  {
    var updates := AcceptedUpdates(p, request, wcStatuses, SheepyStatuses);
    assert (stored + updates) + updates == stored + updates;
  }

  /**
   * The status the settings form shows as chosen: the stored value when it is
   * not empty, else the default; None for a status with neither.
   */
  function EffectiveStatus(options: map<string, string>, status: string): Option<string> {
    if status in options && !IsEmptyString(options[status]) then Some(options[status])
    else if status in DefaultStatusMatching then Some(DefaultStatusMatching[status])
    else None
  }

  /** `selected`: the attribute text for the option `wcStatus` of the select for `status`. */
  function Selected(options: map<string, string>, status: string, wcStatus: string): (r: string)
    ensures r == " selected" <==> EffectiveStatus(options, status) == Some(wcStatus)
    ensures r == "" <==> EffectiveStatus(options, status) != Some(wcStatus)
  {
    if EffectiveStatus(options, status) == Some(wcStatus) then " selected" else ""
  }

  /** Every Sheepy status has an effective WooCommerce status; it is a known one when the stored value is. */
  lemma EffectiveStatusTotal(options: map<string, string>, status: string)
    requires status in SheepyStatusSet
    ensures EffectiveStatus(options, status).Some?
    ensures (status !in options || IsEmptyString(options[status]) || options[status] in WcStatuses) ==>
              EffectiveStatus(options, status).value in WcStatuses
  {
    DefaultTargetsAreWcStatuses();
    DefaultMatchingIsTotal();
  }

  /** The WooCommerce statuses the form marks selected for `status`. */
  function SelectedOptions(options: map<string, string>, status: string): set<string> {
    set w | w in WcStatuses && Selected(options, status, w) == " selected"
  }

  /** For a Sheepy status whose stored value is empty or known, exactly one option of its select is marked. */
  lemma ExactlyOneOptionSelected(options: map<string, string>, status: string)
    requires status in SheepyStatusSet
    requires status !in options || IsEmptyString(options[status]) || options[status] in WcStatuses
    ensures |SelectedOptions(options, status)| == 1
  {
    EffectiveStatusTotal(options, status);
    var chosen := EffectiveStatus(options, status).value;
    assert SelectedOptions(options, status) == {chosen};
  }

  /**
   * The form falls back to the defaults and the handler does not: with an
   * empty stored map, the form shows "new" mapped to wc-pending while a "new"
   * notification is refused.
   */
  lemma FormAndHandlerDisagreeOnEmptyStoredMap(reference: Value)
    ensures Selected(map[], StatusNew, WcStatusPending) == " selected"
    ensures OrderUpdate(reference, map[], Str(StatusNew)) == Reconciliation(Thrown(UnsupportedStatus(StatusNew)), [])
  {
  }

  /**
   * The five text validators (title, description, API key, secret key,
   * notification key): the new value, sanitized, whatever was stored.
   */
  function ValidateTextField(p: Platform, stored: Value, value: Value): (r: string)
    ensures r == SanitizeValue(p, value)
  {
    var chosen := if stored != value then value else stored;
    SanitizeValue(p, chosen)
  }

  datatype ValidationError = ArrayReturnTypeError

  /**
   * `validate_order_states_field`: a non-empty array keeps its keys, in order,
   * with every value sanitized; the empty array is returned as is, and any
   * other value breaks the `array` return type.
   */
  method ValidateOrderStatesField(p: Platform, value: Value) returns (r: Result<Value, ValidationError>)
    ensures value.Arr? <==> r.Success?
    ensures value.Arr? ==>
      && r.value.Arr? && |r.value.entries| == |value.entries|
      && forall j :: 0 <= j < |value.entries| ==>
           r.value.entries[j] == (value.entries[j].0, Str(SanitizeValue(p, value.entries[j].1)))
  {
    var orderStates := value;
    if !IsEmptyValue(orderStates) && orderStates.Arr? {
      var entries := orderStates.entries;
      var i := 0;
      while i < |entries|
        invariant 0 <= i <= |entries| == |value.entries|
        invariant forall j :: 0 <= j < i ==> entries[j] == (value.entries[j].0, Str(SanitizeValue(p, value.entries[j].1)))
        invariant forall j :: i <= j < |entries| ==> entries[j] == value.entries[j]
      {
        entries := entries[i := (entries[i].0, Str(SanitizeValue(p, entries[i].1)))];
        i := i + 1;
      }
      orderStates := Arr(entries);
    }
    if !orderStates.Arr? {
      return Failure(ArrayReturnTypeError);
    }
    return Success(orderStates);
  }

  // ---------------------------------------------------------------------------
  // Checkout and notifications

  /** `notification_url`: the site URL of the REST route. */
  function NotificationUrl(p: Platform): string {
    p.siteUrl("wp-json/" + RestApiRoute)
  }

  function InvoiceErrorResponse(): (r: Value)
    ensures Get(r, "result") == Str("error") && Get(r, "messages") == Str(InvoiceErrorMessage)
  {
    var entries := [("result", Str("error")), ("messages", Str(InvoiceErrorMessage))];
    LookupAt(entries, 0, "result");
    LookupAt(entries, 1, "messages");
    Arr(entries)
  }

  function SuccessResponse(redirect: Value): (r: Value)
    ensures Get(r, "result") == Str("success") && Get(r, "redirect") == redirect
  {
    var entries := [("result", Str("success")), ("redirect", redirect)];
    LookupAt(entries, 0, "result");
    LookupAt(entries, 1, "redirect");
    Arr(entries)
  }

  /** What `process_payment` reads from a loaded order. */
  datatype OrderInfo = OrderInfo(id: int, total: Value, billingEmail: string, returnUrl: string)

  /** The invoice request body built for an order. */
  function InvoiceRequestBody(p: Platform, order: OrderInfo, shopUrl: string, currency: string): (body: PhpArray)
    ensures Get(Arr(body), "reference") == Str(IntToString(order.id))
    ensures Get(Arr(body), "back_url") == Str(shopUrl) && Get(Arr(body), "success_url") == Str(order.returnUrl)
    ensures Get(Get(Arr(body), "settings"), "notification_url") == Str(NotificationUrl(p))
  {
    var settings := [("currency", Str(currency)), ("notification_url", Str(NotificationUrl(p)))];
    var body := [
      ("amount", order.total),
      ("reference", Str(IntToString(order.id))),
      ("description", Str(shopUrl + " Order #" + IntToString(order.id))),
      ("email", Str(order.billingEmail)),
      ("back_url", Str(shopUrl)),
      ("success_url", Str(order.returnUrl)),
      ("settings", Arr(settings))
    ];
    LookupAt(body, 1, "reference");
    LookupAt(body, 4, "back_url");
    LookupAt(body, 5, "success_url");
    LookupAt(body, 6, "settings");
    LookupAt(settings, 1, "notification_url");
    body
  }

  class SheepyGateway {
    const title: string
    const description: string
    const apiKey: string
    const secretKey: string
    const notificationKey: string
    /** The stored `order_states` option. */
    var orderStates: map<string, string>
    /** How many times the `order_states` option has been written. */
    var orderStatesWrites: nat

    constructor (title: string, description: string, apiKey: string, secretKey: string, notificationKey: string,
                 orderStates: map<string, string>)
      ensures this.title == title && this.description == description
      ensures this.apiKey == apiKey && this.secretKey == secretKey && this.notificationKey == notificationKey
      ensures this.orderStates == orderStates && orderStatesWrites == 0
    {
      this.title := title;
      this.description := description;
      this.apiKey := apiKey;
      this.secretKey := secretKey;
      this.notificationKey := notificationKey;
      this.orderStates := orderStates;
      orderStatesWrites := 0;
    }

    /**
     * `save_order_states`: `request` is the field value as `get_field_value`
     * returns it, already passed through the order-states validator; `wcStatuses` the
     * keys of `wc_get_order_statuses()`. The merged map is written once.
     */
    method SaveOrderStates(p: Platform, request: map<string, Value>, wcStatuses: set<string>)
      modifies this
      ensures orderStates == MergeOrderStates(p, old(orderStates), request, wcStatuses)
      ensures orderStatesWrites == old(orderStatesWrites) + 1
    {
      var states := orderStates;
      for i := 0 to |SheepyStatuses|
        invariant orderStates == old(orderStates) && orderStatesWrites == old(orderStatesWrites)
        invariant states == orderStates + AcceptedUpdates(p, request, wcStatuses, SheepyStatuses[..i])
      {
        MergeStep(p, orderStates, request, wcStatuses, i);
        var sheepyStatus := SheepyStatuses[i];
        if !(sheepyStatus in request && request[sheepyStatus] != Null) {
          continue;
        }
        var wcState := SanitizeValue(p, request[sheepyStatus]);
        if wcState in wcStatuses {
          states := states[sheepyStatus := wcState];
        }
      }
      assert SheepyStatuses[..|SheepyStatuses|] == SheepyStatuses;
      orderStates := states;
      orderStatesWrites := orderStatesWrites + 1;
    }

    /**
     * `process_payment`: `orders` is `wc_get_order`, `shopUrl` is `home_url()`,
     * `transport` the cURL exchange. Returns the response array, the invoice
     * request sent (if any), whether the cart was emptied and the notice shown.
     */
    method ProcessPayment(p: Platform, orderId: Value, orders: Value -> Option<OrderInfo>, shopUrl: string, currency: string,
                          now: int, transport: CurlOptions -> Response)
      returns (response: Value, sent: Option<CurlOptions>, cartEmptied: bool, notice: Option<string>)
      ensures IsEmptyValue(orderId) ==>
        response == Arr([]) && sent == None && !cartEmptied && notice == Some(MissingOrderIdNotice)
      ensures !IsEmptyValue(orderId) && orders(orderId).None? ==>
        response == Arr([]) && sent == None && !cartEmptied && notice == Some(UnknownOrderNotice(orderId))
      ensures !IsEmptyValue(orderId) && orders(orderId).Some? ==>
        var body := p.jsonEncode(Arr(InvoiceRequestBody(p, orders(orderId).value, shopUrl, currency)));
        && notice == None && sent.Some?
        && sent.value.url == InvoicesUrl && sent.value.postFields == Some(body)
        && sent.value.httpHeader == RequestHeaders(Client(apiKey, secretKey, UserAgent),
                                                   p.hmacSha256(secretKey, IntToString(now) + "POST" + InvoicesUrl + body), now)
        && var reply := transport(sent.value);
           var result := ClassifyResponse(p, p.jsonDecode(reply.body), reply.code, reply.curlError);
           && (cartEmptied <==> result.Success? && !IsEmptyValue(result.value))
           && response == (if cartEmptied then SuccessResponse(Get(Get(result.value, "data"), "url")) else InvoiceErrorResponse())
      ensures cartEmptied <==> Get(response, "result") == Str("success")
    {
      cartEmptied := false;
      sent := None;
      if IsEmptyValue(orderId) {
        return Arr([]), sent, cartEmptied, Some(MissingOrderIdNotice);
      }
      var order := orders(orderId);
      if order.None? {
        return Arr([]), sent, cartEmptied, Some(UnknownOrderNotice(orderId));
      }
      notice := None;
      var data := InvoiceRequestBody(p, order.value, shopUrl, currency);
      var sheepyService := Client(apiKey, secretKey, UserAgent);
      var options, invoice := CreateInvoice(p, sheepyService, data, now, transport);
      sent := Some(options);
      if invoice.Failure? {
        return InvoiceErrorResponse(), sent, cartEmptied, notice;
      }
      if !IsEmptyValue(invoice.value) {
        cartEmptied := true;
        response := SuccessResponse(Get(Get(invoice.value, "data"), "url"));
      } else {
        response := InvoiceErrorResponse();
      }
    }

    /**
     * `handle_notification`: a handler built from the two headers handles the
     * request parameters with this gateway's notification URL, stored status
     * map and notification key.
     */
    method HandleNotification(p: Platform, timestampHeader: Option<string>, signatureHeader: Option<string>, now: int,
                              rawBody: string, requestParams: PhpArray, store: OrderStore)
      returns (outcome: HandleOutcome)
      modifies store
      ensures var r := Reconcile(p, NewCallbackHandler(p, timestampHeader, signatureHeader), now, rawBody, Arr(requestParams),
                                 NotificationUrl(p), notificationKey, orderStates, store.orders);
        outcome == r.outcome && store.calls == old(store.calls) + r.calls
    {
      var handler := NewCallbackHandler(p, timestampHeader, signatureHeader);
      outcome := Handle(p, handler, now, rawBody, Arr(requestParams), NotificationUrl(p), notificationKey, orderStates, store);
    }
  }
}
