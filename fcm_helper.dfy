/** The fixed preference keys shared by the subscription manager and the message router. */
module FCMHelper {

  /** Boolean preference: whether analytics events are logged at all. */
  const IS_ANALYTICS_ENABLED: string := "IS_ANALYTICS_ENABLED"

  /** String preference: event name logged when a push message arrives. */
  const ON_RECEIVE_EVENT: string := "ON_RECEIVE_EVENT"

  /** String preference: event name of the "promoted app installed" slot. */
  const ON_PROMOTION_APP_INSTALLED: string := "ON_PROMOTION_APP_INSTALLED"

  /** String preference: event name of the "promoted app not installed" slot. */
  const ON_PROMOTION_APP_NOT_INSTALLED: string := "ON_PROMOTION_APP_NOT_INSTALLED"

  /** The three event-name slots that the analytics bundle may fill. */
  predicate IsEventSlot(key: string)
  {
    key == ON_RECEIVE_EVENT || key == ON_PROMOTION_APP_INSTALLED || key == ON_PROMOTION_APP_NOT_INSTALLED
  }

  /** The four keys are pairwise distinct, and the flag key is not an event slot. */
  lemma KeysDistinct()
    ensures !IsEventSlot(IS_ANALYTICS_ENABLED)
    ensures ON_RECEIVE_EVENT != ON_PROMOTION_APP_INSTALLED
    ensures ON_RECEIVE_EVENT != ON_PROMOTION_APP_NOT_INSTALLED
    ensures ON_PROMOTION_APP_INSTALLED != ON_PROMOTION_APP_NOT_INSTALLED
  {
    assert |IS_ANALYTICS_ENABLED| == 20 && |ON_RECEIVE_EVENT| == 16;
    assert |ON_PROMOTION_APP_INSTALLED| == 26 && |ON_PROMOTION_APP_NOT_INSTALLED| == 30;
  }
}
