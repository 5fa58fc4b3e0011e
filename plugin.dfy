/**
 * The plugin's bootstrap functions: the webhook endpoint's result envelope,
 * the REST route registration, the requirements check run on activation, the
 * settings link on the plugins screen and the gateway list filter.
 */
module Plugin {
  import opened Php
  import opened Platform
  import opened SheepyConstants
  import opened WooCommerce
  import opened CallbackHandler
  import opened Gateway

  // ---------------------------------------------------------------------------
  // Webhook endpoint

  /** The array `sheepy_add_webhook_handler` returns; a null error is None. */
  datatype WebhookResponse = WebhookResponse(success: bool, error: Option<string>)

  /** The try/catch around `handle_notification`: any throwable becomes its message. */
  function WebhookEnvelope(p: Platform, outcome: HandleOutcome): (r: WebhookResponse)
    ensures r.success <==> outcome.Returned?
    ensures r.success <==> r.error == None
    ensures outcome.Thrown? ==> r.error == Some(ErrorMessage(p, outcome.error))
  {
    match outcome
    case Returned => WebhookResponse(true, None)
    case Thrown(e) => WebhookResponse(false, Some(ErrorMessage(p, e)))
  }

  /**
   * `sheepy_add_webhook_handler`: never throws; the envelope reports how the
   * handler ended, and the store sees exactly the handler's calls.
   */
  method AddWebhookHandler(p: Platform, gateway: SheepyGateway, timestampHeader: Option<string>, signatureHeader: Option<string>,
                           now: int, rawBody: string, params: PhpArray, store: OrderStore)
    returns (response: WebhookResponse)
    modifies store
    ensures var r := Reconcile(p, NewCallbackHandler(p, timestampHeader, signatureHeader), now, rawBody, Arr(params),
                               NotificationUrl(p), gateway.notificationKey, gateway.orderStates, store.orders);
      response == WebhookEnvelope(p, r.outcome) && store.calls == old(store.calls) + r.calls
  {
    var outcome := gateway.HandleNotification(p, timestampHeader, signatureHeader, now, rawBody, params, store);
    if outcome.Thrown? {
      return WebhookResponse(false, Some(ErrorMessage(p, outcome.error)));
    }
    return WebhookResponse(true, None);
  }

  /** A fresh notification with a wrong signature is answered with the signature error and changes no order. */
  lemma BadSignatureEnvelope(p: Platform, h: SheepyCallbackHandler, now: int, rawBody: string, body: Value,
                             url: string, key: string, configured: map<string, string>, orders: set<Value>)
    requires CheckRequestLifetime(h, now) && !CheckRequestSignature(p, h, url, rawBody, key)
    ensures var r := Reconcile(p, h, now, rawBody, body, url, key, configured, orders);
      && WebhookEnvelope(p, r.outcome) == WebhookResponse(false, Some("Received Sheepy notification request has invalid signature."))
      && r.calls == []
  {
  }

  // ---------------------------------------------------------------------------
  // REST route

  /** The namespace and route `sheepy_register_webhook` registers; a missing part reads as null. */
  datatype RestRoute = RestRoute(namespace: Value, route: Value)

  /** The list destructuring of `explode('/', $route)`. */
  function WebhookRoute(route: string): RestRoute {
    var parts := Explode('/', route);
    RestRoute(Str(parts[0]), if |parts| > 1 then Str(parts[1]) else Null)
  }

  /** A route of two slash-free parts joined by one slash splits back into those parts. */
  lemma RouteSplitsAtSlash(namespace: string, route: string)
    requires '/' !in namespace && '/' !in route
    ensures WebhookRoute(namespace + "/" + route) == RestRoute(Str(namespace), Str(route))
  {
    ExplodeAtFirst('/', namespace, route);
    ExplodeWithoutDelimiter('/', route);
    assert namespace + "/" + route == namespace + ['/'] + route;
  }

  /** The route constant holds one slash with text on both sides; it registers namespace "sheepy-payments", route "gateway". */
  lemma WebhookRouteOfConstant()
    ensures RestApiRoute == "sheepy-payments" + "/" + "gateway"
    ensures '/' !in "sheepy-payments" && '/' !in "gateway"
    ensures WebhookRoute(RestApiRoute) == RestRoute(Str("sheepy-payments"), Str("gateway"))
  {
    RouteSplitsAtSlash("sheepy-payments", "gateway");
  }

  /**
   * The URL the gateway sends as the invoice's notification URL, and checks the
   * signature against, is the endpoint `sheepy_register_webhook` registers.
   */
  lemma NotificationUrlIsRegisteredRoute(p: Platform, namespace: string, route: string)
    requires WebhookRoute(RestApiRoute) == RestRoute(Str(namespace), Str(route))
    ensures NotificationUrl(p) == p.siteUrl("wp-json/" + namespace + "/" + route)
  {
    WebhookRouteOfConstant();
    assert namespace == "sheepy-payments" && route == "gateway";
    ConcatAssociates("wp-json/", namespace, "/", route);
  }

  lemma ConcatAssociates(a: string, b: string, c: string, d: string)
    ensures a + b + c + d == a + (b + c + d)
  {
  }

  // ---------------------------------------------------------------------------
  // Requirements

  /** What `sheepy_check_requirements` reads from its environment. */
  datatype Environment = Environment(
    phpVersion: string,
    wordPressVersion: string,
    /** `$woocommerce->version`, or None when `$woocommerce` is empty. */
    wooCommerceVersion: Option<string>,
    curlLoaded: bool,
    /** `wc_get_base_location()['country']`. */
    baseCountry: Value
  )

  datatype RequirementFailure =
    | PhpTooOld
    | WordPressTooOld
    | WooCommerceMissing
    | WooCommerceTooOld(version: string)
    | CurlMissing
    | CountryProhibited

  const PhpTooOldMessage := "Your PHP version is too old. The Sheepy payment plugin requires PHP " + RequiredPhpVersion
    + " or higher to function. Please contact your web server administrator for assistance."
  const WordPressTooOldMessage := "Your WordPress version is too old. The Sheepy payment plugin requires WordPress " + RequiredWordPressVersion
    + " or higher to function. Please contact your web server administrator for assistance."
  const WooCommerceMissingMessage :=
    "The WooCommerce plugin for WordPress needs to be installed and activated. Please contact your web server administrator for assistance."
  const CurlMissingMessage :=
    "The Sheepy payment plugin requires the Curl extension for PHP in order to function. Please contact your web server administrator for assistance."
  const CountryProhibitedMessage := "Your store is registered in a country where Sheepy payments does not supports."

  function FailureMessage(f: RequirementFailure): string {
    match f
    case PhpTooOld => PhpTooOldMessage
    case WordPressTooOld => WordPressTooOldMessage
    case WooCommerceMissing => WooCommerceMissingMessage
    case WooCommerceTooOld(version) =>
      "Your WooCommerce version is too old. The Sheepy payment plugin requires WooCommerce " + RequiredWooCommerceVersion
      + " or higher to function. Your version is " + version + ". Please contact your web server administrator for assistance."
    case CurlMissing => CurlMissingMessage
    case CountryProhibited => CountryProhibitedMessage
  }

  /** The position of each check in the order the checks run. */
  function Rank(f: RequirementFailure): nat {
    match f
    case PhpTooOld => 0
    case WordPressTooOld => 1
    case WooCommerceMissing => 2
    case WooCommerceTooOld(_) => 2
    case CurlMissing => 3
    case CountryProhibited => 4
  }

  /** `in_array` with loose comparison against the prohibited country codes. */
  predicate InProhibitedCountries(country: Value) {
    exists i :: 0 <= i < |ProhibitedCountries| && LooseEqualsText(country, ProhibitedCountries[i])
  }

  /** The failed checks, in the order they run. */
  function RequirementFailures(p: Platform, env: Environment): seq<RequirementFailure> {
    PhpFailure(p, env) + WordPressFailure(p, env) + WooCommerceFailure(p, env) + CurlFailure(env) + CountryFailure(env)
  }

  function PhpFailure(p: Platform, env: Environment): seq<RequirementFailure> {
    if p.versionLess(env.phpVersion, RequiredPhpVersion) then [PhpTooOld] else []
  }

  function WordPressFailure(p: Platform, env: Environment): seq<RequirementFailure> {
    if p.versionLess(env.wordPressVersion, RequiredWordPressVersion) then [WordPressTooOld] else []
  }

  /** An empty `$woocommerce` and an old one are the two arms of one `if`/`elseif`. */
  function WooCommerceFailure(p: Platform, env: Environment): seq<RequirementFailure> {
    if env.wooCommerceVersion.None? then [WooCommerceMissing]
    else if p.versionLess(env.wooCommerceVersion.value, RequiredWooCommerceVersion) then [WooCommerceTooOld(env.wooCommerceVersion.value)]
    else []
  }

  function CurlFailure(env: Environment): seq<RequirementFailure> {
    if !env.curlLoaded then [CurlMissing] else []
  }

  function CountryFailure(env: Environment): seq<RequirementFailure> {
    if InProhibitedCountries(env.baseCountry) then [CountryProhibited] else []
  }

  function Messages(failures: seq<RequirementFailure>): (messages: seq<string>)
    ensures |messages| == |failures|
    ensures forall i :: 0 <= i < |failures| ==> messages[i] == FailureMessage(failures[i])
  {
    if failures == [] then [] else [FailureMessage(failures[0])] + Messages(failures[1..])
  }

  lemma MessagesAppend(a: seq<RequirementFailure>, b: seq<RequirementFailure>)
    ensures Messages(a + b) == Messages(a) + Messages(b)
  {
    var joined, pieces := Messages(a + b), Messages(a) + Messages(b);
    forall i | 0 <= i < |joined|
      ensures joined[i] == pieces[i]
    {
      if i < |a| {
        assert (a + b)[i] == a[i];
      } else {
        assert (a + b)[i] == b[i - |a|];
      }
    }
  }

  /** `sheepy_check_requirements`: None stands for `false`, else the messages joined by "<br>\n". */
  method CheckRequirements(p: Platform, env: Environment) returns (failed: Option<string>)
    ensures RequirementFailures(p, env) == [] ==> failed == None
    ensures RequirementFailures(p, env) != [] ==> failed == Some(Implode("<br>\n", Messages(RequirementFailures(p, env))))
  {
    var errors: seq<string> := [];
    if p.versionLess(env.phpVersion, RequiredPhpVersion) {
      errors := errors + [FailureMessage(PhpTooOld)];
    }
    assert errors == Messages(PhpFailure(p, env));
    if p.versionLess(env.wordPressVersion, RequiredWordPressVersion) {
      errors := errors + [FailureMessage(WordPressTooOld)];
    }
    assert errors == Messages(PhpFailure(p, env)) + Messages(WordPressFailure(p, env));
    if env.wooCommerceVersion.None? {
      errors := errors + [FailureMessage(WooCommerceMissing)];
    } else if p.versionLess(env.wooCommerceVersion.value, RequiredWooCommerceVersion) {
      errors := errors + [FailureMessage(WooCommerceTooOld(env.wooCommerceVersion.value))];
    }
    assert errors == Messages(PhpFailure(p, env)) + Messages(WordPressFailure(p, env)) + Messages(WooCommerceFailure(p, env));
    if !env.curlLoaded {
      errors := errors + [FailureMessage(CurlMissing)];
    }
    assert errors == Messages(PhpFailure(p, env)) + Messages(WordPressFailure(p, env)) + Messages(WooCommerceFailure(p, env))
      + Messages(CurlFailure(env));
    if InProhibitedCountries(env.baseCountry) {
      errors := errors + [FailureMessage(CountryProhibited)];
    }
    assert errors == Messages(PhpFailure(p, env)) + Messages(WordPressFailure(p, env)) + Messages(WooCommerceFailure(p, env))
      + Messages(CurlFailure(env)) + Messages(CountryFailure(env));
    RequirementMessages(p, env);
    failed := if errors != [] then Some(Implode("<br>\n", errors)) else None;
  }

  /** The messages of all failures are the messages of each check's failure, in order. */
  lemma RequirementMessages(p: Platform, env: Environment)
    ensures Messages(RequirementFailures(p, env))
      == Messages(PhpFailure(p, env)) + Messages(WordPressFailure(p, env)) + Messages(WooCommerceFailure(p, env))
         + Messages(CurlFailure(env)) + Messages(CountryFailure(env))
  {
    var a, b, c, d, e := PhpFailure(p, env), WordPressFailure(p, env), WooCommerceFailure(p, env), CurlFailure(env), CountryFailure(env);
    MessagesAppend(a, b);
    MessagesAppend(a + b, c);
    MessagesAppend(a + b + c, d);
    MessagesAppend(a + b + c + d, e);
  }

  /** The requirements pass exactly when every check does. */
  lemma RequirementsPassIff(p: Platform, env: Environment)
    ensures RequirementFailures(p, env) == [] <==>
      && !p.versionLess(env.phpVersion, RequiredPhpVersion)
      && !p.versionLess(env.wordPressVersion, RequiredWordPressVersion)
      && env.wooCommerceVersion.Some? && !p.versionLess(env.wooCommerceVersion.value, RequiredWooCommerceVersion)
      && env.curlLoaded
      && !InProhibitedCountries(env.baseCountry)
  {
  }

  /** The failures come in check order, each check at most once, and the two WooCommerce failures never together. */
  lemma FailuresInCheckOrder(p: Platform, env: Environment)
    ensures var fs := RequirementFailures(p, env);
      && Ranked(fs)
      && !(WooCommerceMissing in fs && exists v :: WooCommerceTooOld(v) in fs)
  {
    var a, b, c, d, e := PhpFailure(p, env), WordPressFailure(p, env), WooCommerceFailure(p, env), CurlFailure(env), CountryFailure(env);
    assert RankedWithin(a, 0, 1) && RankedWithin(b, 1, 2) && RankedWithin(c, 2, 3);
    assert RankedWithin(d, 3, 4) && RankedWithin(e, 4, 5);
    RankedConcat(a, b, 0, 1, 2);
    RankedConcat(a + b, c, 0, 2, 3);
    RankedConcat(a + b + c, d, 0, 3, 4);
    RankedConcat(a + b + c + d, e, 0, 4, 5);
    WooCommerceFailuresExclusive(p, env);
  }

  /** Only the WooCommerce check reports either WooCommerce failure, and it reports at most one. */
  lemma WooCommerceFailuresExclusive(p: Platform, env: Environment)
    ensures var fs := RequirementFailures(p, env);
      !(WooCommerceMissing in fs && exists v :: WooCommerceTooOld(v) in fs)
  {
    var fs := RequirementFailures(p, env);
    if WooCommerceMissing in fs {
      assert env.wooCommerceVersion.None?;
      forall v
        ensures WooCommerceTooOld(v) !in fs
      {
      }
    }
  }

  /** Failures whose ranks strictly increase along the sequence. */
  predicate Ranked(fs: seq<RequirementFailure>) {
    forall i, j :: 0 <= i < j < |fs| ==> Rank(fs[i]) < Rank(fs[j])
  }

  /** A ranked run whose ranks all lie in [lo, hi). */
  predicate RankedWithin(fs: seq<RequirementFailure>, lo: nat, hi: nat) {
    Ranked(fs) && forall i :: 0 <= i < |fs| ==> lo <= Rank(fs[i]) < hi
  }

  /** Two ranked runs in adjacent rank ranges concatenate to a ranked run over both ranges. */
  lemma RankedConcat(xs: seq<RequirementFailure>, ys: seq<RequirementFailure>, lo: nat, mid: nat, hi: nat)
    requires lo <= mid <= hi
    requires RankedWithin(xs, lo, mid) && RankedWithin(ys, mid, hi)
    ensures RankedWithin(xs + ys, lo, hi)
  {
    var zs := xs + ys;
    forall i, j | 0 <= i < j < |zs|
      ensures Rank(zs[i]) < Rank(zs[j])
    {
      if j < |xs| {
        assert zs[i] == xs[i] && zs[j] == xs[j];
      } else if i < |xs| {
        assert zs[i] == xs[i] && zs[j] == ys[j - |xs|];
      } else {
        assert zs[i] == ys[i - |xs|] && zs[j] == ys[j - |xs|];
      }
    }
    forall i | 0 <= i < |zs|
      ensures lo <= Rank(zs[i]) < hi
    {
      if i < |xs| {
        assert zs[i] == xs[i] && lo <= Rank(xs[i]) < mid;
      } else {
        assert zs[i] == ys[i - |xs|] && mid <= Rank(ys[i - |xs|]) < hi;
      }
    }
  }

  /** The country failure is reported exactly for a base country in the prohibited list. */
  lemma CountryFailureIff(p: Platform, env: Environment)
    ensures CountryProhibited in RequirementFailures(p, env) <==> InProhibitedCountries(env.baseCountry)
    ensures env.baseCountry.Str? ==>
      (CountryProhibited in RequirementFailures(p, env) <==> env.baseCountry.s in ProhibitedCountries)
  {
  }

  // ---------------------------------------------------------------------------
  // Activation

  /** The `sheepy_plugin_version` option; None while unset. */
  class PluginOptions {
    var pluginVersion: Option<string>

    constructor (pluginVersion: Option<string>)
      ensures this.pluginVersion == pluginVersion
    {
      this.pluginVersion := pluginVersion;
    }
  }

  function ActivationDieMessage(p: Platform, failed: string): string {
    p.escHtml(failed) + "<br><a href=\"" + p.escUrl(p.adminUrl("plugins.php")) + "\">" + p.escHtml("Return to plugins page") + "</a>"
  }

  /**
   * `sheepy_activate`: stores the plugin version when the requirements pass;
   * otherwise stops with `wp_die` (its message returned) and stores nothing.
   */
  method Activate(p: Platform, env: Environment, options: PluginOptions) returns (died: Option<string>)
    modifies options
    ensures RequirementFailures(p, env) == [] ==> options.pluginVersion == Some(PluginVersion) && died == None
    ensures RequirementFailures(p, env) != [] ==>
      && options.pluginVersion == old(options.pluginVersion)
      && died == Some(ActivationDieMessage(p, Implode("<br>\n", Messages(RequirementFailures(p, env)))))
  {
    var failed := CheckRequirements(p, env);
    if failed == None {
      options.pluginVersion := Some(PluginVersion);
      died := None;
    } else {
      died := Some(ActivationDieMessage(p, failed.value));
    }
  }

  // ---------------------------------------------------------------------------
  // Plugin list

  const SettingsPath := "admin.php?page=wc-settings&tab=checkout&section=sheepy"
  const LogsPath := "admin.php?page=wc-status&tab=logs"

  function SettingsAnchor(p: Platform): string {
    "<a href=\"" + p.adminUrl(SettingsPath) + "\">Settings</a>"
  }

  /** `logHash` is `sanitize_file_name(wp_hash('sheepy'))`. */
  function LogsAnchor(p: Platform, logHash: string): string {
    "<a href=\"" + p.adminUrl(LogsPath) + "&log_file=sheepy-" + logHash + "-log\">Logs</a>"
  }

  /** `sheepy_settings_link` with its `static $this_plugin` as a field. */
  class SettingsLinkFilter {
    /** The static cache; None while unset. */
    var thisPlugin: Option<string>

    constructor ()
      ensures thisPlugin == None
    {
      thisPlugin := None;
    }

    /**
     * Fills the cache with `basename` unless it already holds a non-empty
     * name, then puts the two links in front when `file` is this plugin.
     */
    method SettingsLink(p: Platform, links: seq<string>, file: Value, basename: string, logHash: string)
      returns (r: seq<string>)
      modifies this
      ensures thisPlugin == (if old(thisPlugin).Some? && !IsEmptyString(old(thisPlugin).value) then old(thisPlugin) else Some(basename))
      ensures LooseEqualsText(file, thisPlugin.value) ==> r == [SettingsAnchor(p), LogsAnchor(p, logHash)] + links
      ensures !LooseEqualsText(file, thisPlugin.value) ==> r == links
    {
      if thisPlugin.None? || IsEmptyString(thisPlugin.value) {
        thisPlugin := Some(basename);
      }
      r := links;
      if LooseEqualsText(file, thisPlugin.value) {
        r := [SettingsAnchor(p), LogsAnchor(p, logHash)] + r;
      }
    }
  }

  const GatewayClass := "Sheepy\\WooCommerce\\SheepyGateway"

  /** The `woocommerce_payment_gateways` filter: this gateway first, then the others in their order. */
  function AddSheepyGateway(plugins: seq<string>): (r: seq<string>)
    ensures |r| == |plugins| + 1 && r[0] == GatewayClass && r[1..] == plugins
  {
    [GatewayClass] + plugins
  }

  /** The filter drops no gateway and adds this one exactly once, ahead of the others. */
  lemma SheepyGatewayAddedOnce(plugins: seq<string>)
    ensures var r := AddSheepyGateway(plugins);
      && multiset(r) == multiset(plugins) + multiset{GatewayClass}
      && r[0] == GatewayClass
      && forall i :: 0 <= i < |plugins| ==> r[i + 1] == plugins[i]
  {
  }
}
