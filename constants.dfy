/**
 * The plugin's constants: the Sheepy invoice statuses, the WooCommerce order
 * statuses, the descriptions and default matching tables keyed by Sheepy
 * status, the REST route and the countries the plugin refuses to run in.
 */
module SheepyConstants {

  const RequiredPhpVersion := "7.2"
  const RequiredWooCommerceVersion := "6.5"
  const RequiredWordPressVersion := "5.7"
  const PluginVersion := "1.0.0"

  const RestApiRoute := "sheepy-payments/gateway"

  const StatusNew := "new"
  const StatusPartiallyPaid := "partially_paid"
  const StatusConfirming := "confirming"
  const StatusExpired := "expired"
  const StatusInvalid := "invalid"
  const StatusDone := "done"
  const StatusRefundRequested := "refund_requested"
  const StatusRefunded := "refunded"
  const StatusError := "error"

  const WcStatusPending := "wc-pending"
  const WcStatusProcessing := "wc-processing"
  const WcStatusOnHold := "wc-on-hold"
  const WcStatusCompleted := "wc-completed"
  const WcStatusCancelled := "wc-cancelled"
  const WcStatusRefunded := "wc-refunded"
  const WcStatusFailed := "wc-failed"

  /** The Sheepy statuses in the order the descriptions table lists them. */
  const SheepyStatuses: seq<string> := [
    StatusNew, StatusPartiallyPaid, StatusConfirming, StatusExpired, StatusInvalid,
    StatusDone, StatusRefundRequested, StatusRefunded, StatusError
  ]

  const WcStatuses: seq<string> := [
    WcStatusPending, WcStatusProcessing, WcStatusOnHold, WcStatusCompleted,
    WcStatusCancelled, WcStatusRefunded, WcStatusFailed
  ]

  const SheepyStatusSet: set<string> := set s | s in SheepyStatuses

  const StatusDescriptions: map<string, string> := map[
    StatusNew := "Awaiting Sheepy payment: \"new\" status",
    StatusPartiallyPaid := "Sheepy partial payment received: \"partially_paid\" status",
    StatusConfirming := "Awaiting Sheepy payment confirmations: \"confirming\" status",
    StatusExpired := "Sheepy payment expired: \"expired\" status",
    StatusInvalid := "Sheepy payment is invalid: \"invalid\" status",
    StatusDone := "Sheepy payment successfully received: \"done\" status",
    StatusRefundRequested := "Sheepy payment refund requested: \"refund_requested\" status",
    StatusRefunded := "Sheepy payment refunded: \"refunded\" status",
    StatusError := "Sheepy payment error: \"error\" status"
  ]

  const DefaultStatusMatching: map<string, string> := map[
    StatusNew := WcStatusPending,
    StatusConfirming := WcStatusProcessing,
    StatusPartiallyPaid := WcStatusOnHold,
    StatusExpired := WcStatusCancelled,
    StatusInvalid := WcStatusOnHold,
    StatusDone := WcStatusCompleted,
    StatusRefundRequested := WcStatusProcessing,
    StatusRefunded := WcStatusRefunded,
    StatusError := WcStatusFailed
  ]

  const ProhibitedCountries: seq<string> := [
    "AF", "AL", "BY", "BF", "CF", "CN", "CD", "ER", "GU", "GW", "HT", "IR", "IQ", "JM", "LB",
    "LY", "ML", "MM", "KP", "PA", "RU", "SN", "SO", "SS", "SD", "SY", "VI", "UG", "UM", "YE"
  ]

  /** The default table has exactly the nine Sheepy statuses as keys. */
  lemma DefaultMatchingIsTotal()
    ensures DefaultStatusMatching.Keys == SheepyStatusSet
    ensures |SheepyStatuses| == 9
    ensures forall s :: s in SheepyStatuses ==> s in DefaultStatusMatching
  {
  }

  /** Every default target is one of the seven WooCommerce statuses. */
  lemma DefaultTargetsAreWcStatuses()
    ensures forall s :: s in DefaultStatusMatching ==> DefaultStatusMatching[s] in WcStatuses
  {
  }

  /** The descriptions table and the default table have the same keys. */
  lemma DescriptionKeysMatchDefaultKeys()
    ensures StatusDescriptions.Keys == DefaultStatusMatching.Keys
  {
  }

  /** The status strings are pairwise distinct, and the WooCommerce ones carry the "wc-" prefix. */
  lemma StatusesAreDistinct()
    ensures forall i, j :: 0 <= i < j < |SheepyStatuses| ==> SheepyStatuses[i] != SheepyStatuses[j]
    ensures forall i, j :: 0 <= i < j < |WcStatuses| ==> WcStatuses[i] != WcStatuses[j]
    ensures forall w :: w in WcStatuses ==> |w| > 3 && w[..3] == "wc-"
  {
  }

  /** Some concrete defaults; the table is not injective. */
  lemma ConcreteDefaults()
    ensures DefaultStatusMatching[StatusNew] == WcStatusPending
    ensures DefaultStatusMatching[StatusDone] == WcStatusCompleted
    ensures DefaultStatusMatching[StatusError] == WcStatusFailed
    ensures DefaultStatusMatching[StatusPartiallyPaid] == DefaultStatusMatching[StatusInvalid] == WcStatusOnHold
    ensures DefaultStatusMatching[StatusConfirming] == DefaultStatusMatching[StatusRefundRequested] == WcStatusProcessing
    ensures StatusPartiallyPaid != StatusInvalid && StatusConfirming != StatusRefundRequested
  {
  }
}
