# Sheepy for WooCommerce, modelled in Dafny

Sheepy for WooCommerce is a WordPress plugin that adds a cryptocurrency
payment gateway to WooCommerce. At checkout it creates a Sheepy invoice and
sends the customer to it. It also receives Sheepy's signed notifications and
moves the WooCommerce order to the matching status. This project models the
plugin's logic once the WordPress, WooCommerce and cURL calls are abstracted,
and proves properties of that model.

The model has eight modules, one file each:

- `Php` (`php.dfy`): the PHP behaviour the plugin depends on, written out
  concretely. This covers:
  - PHP values and array reads;
  - `empty()`;
  - `==` against a non-numeric string;
  - coercion into a `string` parameter;
  - ASCII `strtoupper`;
  - integer-to-string conversion and the `(int)` cast of a string;
  - `explode` and `implode`.
- `Platform` (`platform.dfy`): the foreign functions the plugin calls but whose
  workings are not modelled. Each is a function-typed field of one record, so
  nothing is assumed about it. They are `hash_hmac`, `sanitize_text_field`,
  `esc_html`, `esc_url`, `json_encode`, `json_decode`, `http_build_query`,
  `get_site_url`, `admin_url` and `version_compare`.
- `SheepyConstants` (`constants.dfy`): the status constants, the descriptions
  table, the default Sheepy→WooCommerce status table, the REST route and the
  prohibited countries.
- `ApiClient` (`api_client.dfy`): the Sheepy API client. It covers the
  canonical string and its HMAC signature, the request URL, the header list,
  the per-method cURL option table, response classification, `request` and
  `createInvoice`. The cURL exchange is a function parameter.
- `WooCommerce` (`woocommerce.dfy`): an `OrderStore` class. It records every
  call the plugin makes on orders: lookup, `update_status`,
  `payment_complete` and `add_order_note`.
- `CallbackHandler` (`callback_handler.dfy`): the notification handler. It
  covers the freshness window, the signature check, the type filter, the
  order lookup and the per-status order update.
  - `Reconcile` states, as a function of its inputs, how `handle` ends and
    which store calls it makes.
  - The methods `Handle` and `UpdateOrder` issue those calls on an
    `OrderStore` and are proved to match `Reconcile`.
- `Gateway` (`gateway.dfy`): the order-status settings (the merge loop of
  `save_order_states`, `selected` and the effective status, the validators),
  `process_payment`, `notification_url` and `handle_notification`.
- `Plugin` (`plugin.dfy`): the top-level functions of the plugin file:
  - the webhook's try/catch envelope;
  - the REST route split;
  - the requirements check and activation;
  - the settings link, with its `static` cache;
  - the gateway list filter.

Time (`time()`), the request headers, the raw request body, the order table
(`wc_get_order`), the shop URL and the currency are parameters. The
notification's parameters (`$request->get_params()`,
sheepy-for-woocommerce.php:103) are a separate parameter from the raw body.
Nothing ties them together: the signature covers the raw body, while the type,
reference and status are read from the parameters.

Where the code and the plugin's documented intent differ, the model follows
the code:

- The freshness check accepts a notification of age 0. The check holds exactly
  when the timestamp is not 0 and the age is between 0 and 5 seconds
  (`CallbackHandler.FreshnessBoundaries`).
- The signature is recomputed over `sanitize_text_field` of the raw body, not
  over the raw body itself. Two bodies that sanitize alike get the same
  verdict. A genuinely signed body that sanitizing changes is rejected even
  with a collision-free HMAC (`CallbackHandler.SignatureBindsSanitizedBody`,
  `CallbackHandler.GenuineButAlteredBodyRejected`).
- The handler maps a status through the stored `order_states` option only,
  with no fallback to the default table. Only the settings form's `selected`
  falls back. So with an empty stored map the form shows `new` as
  `wc-pending` while a `new` notification is refused
  (`Gateway.FormAndHandlerDisagreeOnEmptyStoredMap`).
- `request` is declared to return an array. A decoded response that is not an
  array, with code 200, therefore ends in a TypeError rather than being
  returned (`ApiClient.ClassifyResponseCases`).

## Model

| member | source | states |
|---|---|---|
| SheepyConstants.DefaultMatchingIsTotal | src/SheepyConstants.php:51-61 | The default table's keys are exactly the nine Sheepy statuses. |
| SheepyConstants.DefaultTargetsAreWcStatuses | src/SheepyConstants.php:31-61 | Every default target is one of the seven WooCommerce statuses. |
| SheepyConstants.DescriptionKeysMatchDefaultKeys | src/SheepyConstants.php:39-61 | The descriptions table and the default table have the same key set. |
| SheepyConstants.StatusesAreDistinct | src/SheepyConstants.php:22-37 | The nine Sheepy statuses are pairwise distinct. The seven WooCommerce statuses are pairwise distinct and start with `wc-`. |
| SheepyConstants.ConcreteDefaults | src/SheepyConstants.php:52-60 | Gives the defaults for new, done and error. The table is not injective: partially_paid and invalid share a target, and so do confirming and refund_requested. |
| Php.StrToUpper | vendor/sheepy-api/Client.php:158 | Upper-casing keeps the length and upper-cases each ASCII letter in place. |
| Php.StrToUpperIdempotent | vendor/sheepy-api/Client.php:158 | Upper-casing twice equals upper-casing once. |
| Php.IntCastOfIntToString | src/SheepyCallbackHandler.php:80 | The `(int)` cast of an integer's decimal text gives the integer back, negatives included. |
| Php.ImplodeExplode | sheepy-for-woocommerce.php:131 | Joining the pieces of `explode` with the delimiter gives the original string back. |
| Php.ExplodeAtFirst | sheepy-for-woocommerce.php:131 | `explode` cuts at the first delimiter and continues on the rest. |
| Php.ExplodeWithoutDelimiter | sheepy-for-woocommerce.php:131 | A string without the delimiter explodes to a single piece, itself. |
| ApiClient.SignatureDeterminesCanonicalString | vendor/sheepy-api/Client.php:156-159 | With a collision-free HMAC, two signatures under one key are equal exactly when their canonical strings (decimal time, upper-cased method, URL and body, unseparated) are equal. |
| ApiClient.SignatureBindsTime | vendor/sheepy-api/Client.php:156-159 | With a collision-free HMAC, a signature made for one time differs from the signature for any other time, the method, URL, body and key unchanged. |
| ApiClient.SignatureIgnoresUrlBodyBoundary | vendor/sheepy-api/Client.php:158 | Moving text from the end of the URL to the front of the body leaves the signature unchanged. |
| ApiClient.SignatureMethodCaseInsensitive | vendor/sheepy-api/Client.php:158 | Methods that upper-case alike sign alike; "post" and "POST" give the same signature. |
| ApiClient.HeaderLayout | vendor/sheepy-api/Client.php:69-76 | There are six headers in fixed order. X-Token carries the API key and X-Signature the signature. The X-Timestamp value reads back, by `(int)`, as the signed time. |
| ApiClient.GetCurlOption | vendor/sheepy-api/Client.php:109-143 | POSTFIELDS is `json_encode(params)` exactly for POST, PUT and PATCH. CUSTOMREQUEST is the method exactly for PUT, PATCH and DELETE. `?` and the query are appended exactly for GET and DELETE. The fixed transport options are always set. |
| ApiClient.ClassifyResponseCases | vendor/sheepy-api/Client.php:83-96 | A request succeeds exactly when the code is 200 and the decoded body is an array, and it then returns that body. A decoded `false` fails first, with cURL's error. A code other than 200 fails with a request error. |
| ApiClient.Request | vendor/sheepy-api/Client.php:63-97 | It signs the same `json_encode` output that POST, PUT and PATCH send, at the same time that goes in X-Timestamp. The options sent are exactly the method table's for the signed URL and the headers. The result is the classification of the transport's response. |
| ApiClient.CreateInvoice | vendor/sheepy-api/Client.php:46-49 | A POST to `https://api.sheepy.com/api/v1/invoices`. Its X-Signature is the HMAC of time, "POST", the sent URL and the sent body. |
| WooCommerce.OrderStore.GetOrder | src/SheepyCallbackHandler.php:63-65 | Finds exactly the known references and logs one lookup. |
| WooCommerce.OrderStore.UpdateStatus | src/SheepyCallbackHandler.php:122 | Logs one status update. |
| WooCommerce.OrderStore.PaymentComplete | src/SheepyCallbackHandler.php:150 | Logs one payment completion. |
| WooCommerce.OrderStore.AddOrderNote | src/SheepyCallbackHandler.php:126-128 | Logs one note. |
| CallbackHandler.FreshnessBoundaries | src/SheepyCallbackHandler.php:77-83 | Freshness holds exactly when the cast timestamp is not 0 and the age is between 0 and 5. Ages 0 and 5 pass; age 6 and future timestamps fail. |
| CallbackHandler.SignatureCheckSpec | src/SheepyCallbackHandler.php:92-103 | The check holds exactly when the header is non-empty and equals the HMAC of the cast time, "POST", the notification URL and the sanitized raw body. |
| CallbackHandler.SignatureBindsSanitizedBody | src/SheepyCallbackHandler.php:98 | Two raw bodies with the same sanitized form get the same verdict. |
| CallbackHandler.GenuineNotificationVerifies | src/SheepyCallbackHandler.php:25-103 | A notification signed at time t with the sender's scheme and received 0 to 5 seconds later passes both checks. This needs sanitizing to leave its headers and body unchanged. |
| CallbackHandler.GenuineButAlteredBodyRejected | src/SheepyCallbackHandler.php:94-102 | With an injective HMAC, a genuinely signed notification is rejected when sanitizing changes its body. |
| CallbackHandler.AuthenticationComesFirst | src/SheepyCallbackHandler.php:48-54 | A stale request throws "invalid timestamp" whatever its signature. A fresh request with a bad signature throws "invalid signature". Both have code 400 and make no store call. Any store call implies both checks passed. |
| CallbackHandler.OtherNotificationTypesIgnored | src/SheepyCallbackHandler.php:56-58 | A verified notification of another type returns normally and makes no store call. |
| CallbackHandler.UnknownOrderRejected | src/SheepyCallbackHandler.php:62-67 | For an unknown reference, a verified status change throws after the lookup and makes no other call. |
| CallbackHandler.NoDefaultFallback | src/SheepyCallbackHandler.php:116-120 | A status missing from the stored map throws after the lookup, before any order update, whatever the default table says. |
| CallbackHandler.StatusEffectTable | src/SheepyCallbackHandler.php:124-176 | Four statuses get exactly one note. Four get `payment_complete` and then one note. Any other status gets nothing. Each note is its status's text. |
| CallbackHandler.EffectCounts | src/SheepyCallbackHandler.php:124-176 | The per-status calls hold no lookup, no status update and at most one call of each kind. The completing statuses hold exactly one `payment_complete`. |
| CallbackHandler.AppliedNotificationTrace | src/SheepyCallbackHandler.php:60-69 | For a known order and a stored status, the call returns normally. Its calls are one lookup, one `update_status` to the stored value, then the table's calls. |
| CallbackHandler.AtMostOneCallOfEachKind | src/SheepyCallbackHandler.php:114-177 | One notification makes at most one lookup, one status update, one payment completion and one note. |
| CallbackHandler.ReplayRepeatsCalls | src/SheepyCallbackHandler.php:114-177 | Nothing deduplicates: handling the same notification twice issues two status updates, and two payment completions for completing statuses. |
| CallbackHandler.UpdateOrder | src/SheepyCallbackHandler.php:114-177 | `updateOrder` ends as `OrderUpdate` says and appends exactly its calls to the store. |
| CallbackHandler.Handle | src/SheepyCallbackHandler.php:41-70 | `handle` ends as `Reconcile` says and appends exactly its calls to the store. |
| Gateway.MergeStep | src/SheepyGateway.php:241-252 | One loop step overwrites the current Sheepy status exactly when it is accepted. |
| Gateway.SheepyGateway.SaveOrderStates | src/SheepyGateway.php:231-255 | The stored map becomes the merge of the old map with the accepted request entries. It is written exactly once. |
| Gateway.MergeOnlyTouchesSheepyKeys | src/SheepyGateway.php:241-252 | Keys outside the nine Sheepy statuses keep their stored entry, or stay absent. |
| Gateway.MergeWritesValidValues | src/SheepyGateway.php:246-251 | Every changed or added entry is a Sheepy status that is set in the request. Its value is the sanitized request value and is a known WooCommerce status. |
| Gateway.MergeKeepsRejected | src/SheepyGateway.php:242-251 | A status that is missing from the request or that sanitizes to an unknown value keeps its stored entry. An accepted Sheepy status takes its sanitized value. |
| Gateway.MergeIdempotent | src/SheepyGateway.php:241-254 | Saving the same request again leaves the stored map unchanged. |
| Gateway.Selected | src/SheepyGateway.php:513-525 | Gives " selected" exactly when the effective status (the stored value if non-empty, else the default) is the option, and "" otherwise. |
| Gateway.EffectiveStatusTotal | src/SheepyGateway.php:520-522 | Every Sheepy status has an effective status. It is a WooCommerce status whenever the stored value is empty or one. |
| Gateway.ExactlyOneOptionSelected | src/SheepyGateway.php:513-525 | For a Sheepy status whose stored value is empty or known, exactly one of the seven options is marked selected. |
| Gateway.FormAndHandlerDisagreeOnEmptyStoredMap | src/SheepyGateway.php:513-525 | With an empty stored map, the form selects wc-pending for "new", while the handler refuses a "new" notification. |
| Gateway.ValidateTextField | src/SheepyGateway.php:264-347 | The five text validators return the sanitized new value, whatever was stored. |
| Gateway.ValidateOrderStatesField | src/SheepyGateway.php:357-369 | An array keeps its keys in order with every value sanitized; the empty array stays as is. A non-array breaks the `array` return type. |
| Plugin.NotificationUrlIsRegisteredRoute | src/SheepyGateway.php:466-471 | The notification URL is the site URL of `wp-json/<namespace>/<route>`, for the namespace and route that `sheepy_register_webhook` registers. So the URL sent with the invoice and used in the signature check is the webhook's endpoint. |
| Gateway.InvoiceErrorResponse | src/SheepyGateway.php:498-504 | result is "error" and messages is the fixed apology. |
| Gateway.SuccessResponse | src/SheepyGateway.php:433-436 | result is "success" and redirect is the given URL. |
| Gateway.InvoiceRequestBody | src/SheepyGateway.php:399-410 | The reference is the decimal order id. back_url is the shop URL and success_url is the order's return URL. settings.notification_url is the notification URL. |
| Gateway.SheepyGateway.ProcessPayment | src/SheepyGateway.php:379-442 | An empty id or unknown order gives `[]`, no invoice and its notice. Otherwise a signed invoice POST is sent. The cart is emptied exactly when the invoice comes back non-empty, giving success with redirect `data.url`; else the error response. The cart is emptied exactly on success. |
| Gateway.SheepyGateway.HandleNotification | src/SheepyGateway.php:478-481 | The handler is built from the two headers and runs with this gateway's notification URL, stored status map and notification key. |
| Plugin.WebhookEnvelope | sheepy-for-woocommerce.php:107-121 | success is true exactly when the handler returned, and then error is null. A throwable gives success false and its message. |
| Plugin.AddWebhookHandler | sheepy-for-woocommerce.php:99-122 | Never throws: it answers with the envelope of `Reconcile`'s outcome, and the store sees exactly `Reconcile`'s calls. |
| Plugin.BadSignatureEnvelope | sheepy-for-woocommerce.php:107-114 | A fresh notification with a bad signature is answered `{success: false, error: "…invalid signature."}` and changes nothing. |
| Plugin.RouteSplitsAtSlash | sheepy-for-woocommerce.php:131 | `a/b`, with no slash in a or b, splits into namespace a and route b. |
| Plugin.WebhookRouteOfConstant | sheepy-for-woocommerce.php:131 | The route constant is "sheepy-payments" and "gateway" joined by its only slash. It registers namespace "sheepy-payments" and route "gateway". |
| Plugin.CheckRequirements | sheepy-for-woocommerce.php:152-192 | Gives `false` (None) when no check failed. Otherwise gives the failures' messages, in check order, joined with `<br>\n`. |
| Plugin.RequirementsPassIff | sheepy-for-woocommerce.php:157-191 | No failure exactly when PHP, WordPress and WooCommerce are present and recent enough, curl is loaded, and the country is not prohibited. |
| Plugin.FailuresInCheckOrder | sheepy-for-woocommerce.php:159-187 | Failures come in check order (PHP, WordPress, WooCommerce, curl, country), each check at most once. "WooCommerce missing" and "too old" never occur together. |
| Plugin.CountryFailureIff | sheepy-for-woocommerce.php:185-187 | The country failure occurs exactly when `in_array` finds the base country among the prohibited codes. For a string country, that means it is one of them. |
| Plugin.Activate | sheepy-for-woocommerce.php:199-215 | Stores the plugin version exactly when the requirements pass. Otherwise it stops with the joined failures and stores nothing. |
| Plugin.SettingsLinkFilter.SettingsLink | sheepy-for-woocommerce.php:33-53 | The cache takes the basename unless it already holds a non-empty name. When the file is this plugin, Settings and Logs are prepended; otherwise the links are unchanged. |
| Plugin.SheepyGatewayAddedOnce | sheepy-for-woocommerce.php:66-68 | The filter drops no gateway: the result holds the given gateways plus this gateway once, as a multiset. This gateway comes first and the others keep their order. |

## Left out

- HMAC-SHA256, `sanitize_text_field`, `esc_html`, `esc_url`, `json_encode`/`json_decode`, `http_build_query`, `get_site_url`, `admin_url` and `version_compare` are uninterpreted functions. Facts about them appear only as explicit preconditions of lemmas. The HMAC's injectivity is one, in `ApiClient.SignatureDeterminesCanonicalString`, `ApiClient.SignatureBindsTime` and `CallbackHandler.GenuineButAlteredBodyRejected`. Another is `sanitize_text_field` leaving the timestamp text, the signature or the raw body unchanged, in `CallbackHandler.GenuineNotificationVerifies` and `CallbackHandler.GenuineButAlteredBodyRejected`. The last is an HMAC output that is neither `""` nor `"0"`, in `CallbackHandler.GenuineNotificationVerifies`.
- Php.IntCast: the exponent form (`"1e3"`), hexadecimal and float strings, and integer overflow are not modelled. The cast reads optional leading whitespace, an optional sign and the leading decimal digits.
- CallbackHandler.CheckRequestSignature: the TypeError PHP raises when a timestamp header that is not numeric reaches `createSignature`'s `int` parameter is not modelled. Only headers that start with a non-zero number get past the freshness check, and those are cast like `(int)`.
- CallbackHandler.CheckRequestSignature: `==` is taken as exact string equality. PHP's loose comparison of two numeric strings (such as `"0e1" == "0e2"`) can differ.
- ApiClient.ClassifyResponse: the `=== false` branch is modelled as written over the abstract decoded body. `json_decode` gives null, not false, on text that is not JSON, so decode errors do not reach that branch.
- ApiClient.Request: a failing `json_encode` (which returns `false`) is not modelled; the encoder always returns text.
- The cURL handle, `curl_close`, logging (`log`, `wc_get_logger`), translations (`__()`; texts are the English originals), `wc_add_notice` (returned as a value), option storage other than `order_states` and `sheepy_plugin_version`, and hook registration (`add_action`, `add_filter`, `register_rest_route`) are left out as I/O.
- `sheepy_init` only registers hooks and dies when WooCommerce is absent, so it is not modelled. `woocommerce_sheepy_woocommerce_block_support`, `generate_order_states_html`, `init_form_fields`, `log` and `get_option_key` render UI, write logs or return a constant.
- `SheepyGateway`'s constructor reads its settings from storage; the model takes them as constructor arguments.
- The `order_states` option, the submitted status field and `$optionStatusesMatch` are taken to be arrays of strings. PHP's behaviour when the stored option is some other value is not modelled.
- CallbackHandler.ErrorMessage: the TypeError raised for a null or array status carries an abbreviated message; PHP's full text also names the class, the value's type and the calling file and line.
- Gateway.FormAndHandlerDisagreeOnEmptyStoredMap: covers an empty stored map only. When `order_states` was never saved, `get_option` returns the field's default, `''` (the field at src/SheepyGateway.php:160-164 has no default). `handle` then passes `''` to `updateOrder`'s `array` parameter, and PHP raises a TypeError rather than the unsupported-status error. The model keeps the stored option as a map and does not represent the unset option.
- PHP version: the model follows PHP 8 semantics. Loose `==` between an integer and a non-numeric string compares them as strings (`Php.LooseEqualsText`), and `strtoupper` is ASCII-only as in PHP 8.2 (`Php.StrToUpper`). The plugin also accepts PHP 7.2. There, `0 == 'invoice_status_changed'` is true, so a verified notification whose `type` is the integer 0 would pass the type filter (src/SheepyCallbackHandler.php:56) rather than be ignored. The `in_array` country check (sheepy-for-woocommerce.php:185) differs in the same way. Locale-dependent `strtoupper` before PHP 8.2 is not modelled either.
- Plugin.SettingsLink and Plugin.AddSheepyGateway: the link and gateway lists are sequences of strings. The string keys that `array_unshift` and `array_merge` keep in a PHP array with string keys are not represented.
- Reading an offset of a string (`$requestBody['data']` when `data` is a string) is modelled as reading null.
- src/SheepyPaymentMethodType.php (a WooCommerce Blocks adapter), vendor/composer/autoload_classmap.php (a generated class map) and uninstall.php (two option deletions) are not part of this model.
