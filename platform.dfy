/**
 * The WordPress, WooCommerce and PHP-extension functions the plugin calls but
 * whose workings are not part of this model. Each is a field of `Platform`,
 * so every operation that uses one takes the platform as a parameter and
 * nothing is assumed about what the function computes.
 */
module Platform {
  import opened Php

  datatype Platform = Platform(
    /** `hash_hmac('sha256', $message, $key)`, lowercase hex; arguments here are (key, message). */
    hmacSha256: (string, string) -> string,
    /** WordPress `sanitize_text_field`. */
    sanitizeTextField: string -> string,
    /** WordPress `esc_html`. */
    escHtml: string -> string,
    /** WordPress `esc_url`. */
    escUrl: string -> string,
    /** `json_encode`. */
    jsonEncode: Value -> string,
    /** `json_decode($body, true)`; null when the text is no JSON. */
    jsonDecode: string -> Value,
    /** `http_build_query`. */
    httpBuildQuery: Value -> string,
    /** `get_site_url(null, $path)`. */
    siteUrl: string -> string,
    /** `admin_url($path)`. */
    adminUrl: string -> string,
    /** `version_compare($a, $b, '<')`. */
    versionLess: (string, string) -> bool
  )
}
