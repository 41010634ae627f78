/**
 * The campaign configuration (`ASKFCM`) and its fluent `Builder`. The builder starts from the
 * defaults (no context, topic "", analytics off, no bundle); each setter replaces one field and
 * returns the builder; `build` fails when no context was set, then when analytics is on
 * without a bundle, and otherwise returns a configuration carrying the builder's fields.
 */
module Config {
  import opened Wrappers
  import opened Platform
  import opened Subscription

  /** `IllegalStateException` thrown by `build`. */
  datatype IllegalStateException = IllegalStateException(message: string)

  const CONTEXT_NOT_SET: string := "Context must be set before building"
  const BUNDLE_MISSING: string := "Analytics Bundle must not be null"

  /** A built configuration; nothing in the library changes it after construction. */
  datatype ASKFCM = ASKFCM(context: Context, topic: string, enableAnalytics: bool, analyticsBundle: Option<Bundle>)

  class Builder {
    /** `lateinit var mContext`: `None` until `setContext` is called. */
    var context: Option<Context>
    var topic: string
    var enableAnalytics: bool
    var analyticsBundle: Option<Bundle>

    constructor ()
      ensures context == None && topic == "" && !enableAnalytics && analyticsBundle == None
    {
      context := None;
      topic := "";
      enableAnalytics := false;
      analyticsBundle := None;
    }

    method SetContext(c: Context) returns (self: Builder)
      modifies this
      ensures self == this && context == Some(c)
      ensures topic == old(topic) && enableAnalytics == old(enableAnalytics) && analyticsBundle == old(analyticsBundle)
    {
      context := Some(c);
      self := this;
    }

    method SetTopic(t: string) returns (self: Builder)
      modifies this
      ensures self == this && topic == t
      ensures context == old(context) && enableAnalytics == old(enableAnalytics) && analyticsBundle == old(analyticsBundle)
    {
      topic := t;
      self := this;
    }

    method EnableAnalytics(isEnable: bool) returns (self: Builder)
      modifies this
      ensures self == this && enableAnalytics == isEnable
      ensures context == old(context) && topic == old(topic) && analyticsBundle == old(analyticsBundle)
    {
      enableAnalytics := isEnable;
      self := this;
    }

    method AnalyticsBundle(bundle: Bundle) returns (self: Builder)
      modifies this
      ensures self == this && analyticsBundle == Some(bundle)
      ensures context == old(context) && topic == old(topic) && enableAnalytics == old(enableAnalytics)
    {
      analyticsBundle := Some(bundle);
      self := this;
    }

    /** Validates in source order: the missing context is reported even when the bundle is missing too. */
    method Build() returns (r: Result<ASKFCM, IllegalStateException>)
      ensures context.None? ==> r == Failure(IllegalStateException(CONTEXT_NOT_SET))
      ensures context.Some? && enableAnalytics && analyticsBundle.None? ==> r == Failure(IllegalStateException(BUNDLE_MISSING))
      ensures r.Success? <==> context.Some? && (enableAnalytics ==> analyticsBundle.Some?)
      ensures r.Success? ==> r.value == ASKFCM(context.value, topic, enableAnalytics, analyticsBundle)
    {
      if context.None? {
        return Failure(IllegalStateException(CONTEXT_NOT_SET));
      }
      if enableAnalytics && analyticsBundle.None? {
        return Failure(IllegalStateException(BUNDLE_MISSING));
      }
      r := Success(ASKFCM(context.value, topic, enableAnalytics, analyticsBundle));
    }
  }

  /** `startService`: a subscription manager carrying the configuration's four fields unchanged. */
  method StartService(fcm: ASKFCM) returns (manager: ASKFCMBuilderImp)
    ensures fresh(manager)
    ensures manager.context == fcm.context && manager.topic == fcm.topic
    ensures manager.enableAnalytics == fcm.enableAnalytics && manager.analyticsBundle == fcm.analyticsBundle
  {
    manager := new ASKFCMBuilderImp(fcm.context, fcm.topic, fcm.enableAnalytics, fcm.analyticsBundle);
  }

  /** A builder given only a context builds, with the default topic, flag and bundle. */
  method BuildWithOnlyContext(c: Context) returns (r: Result<ASKFCM, IllegalStateException>)
    ensures r == Success(ASKFCM(c, "", false, None))
  {
    var builder := new Builder();
    builder := builder.SetContext(c);
    r := builder.Build();
  }

  /** Analytics on, no bundle and no context: the context error is the one reported. */
  method BuildWithoutContextOrBundle() returns (r: Result<ASKFCM, IllegalStateException>)
    ensures r == Failure(IllegalStateException(CONTEXT_NOT_SET))
  {
    var builder := new Builder();
    builder := builder.EnableAnalytics(true);
    r := builder.Build();
  }

  /** Setters compose and the last call to a setter wins. */
  method BuildWithRepeatedSetters(c: Context, first: string, second: string, bundle: Bundle)
    returns (r: Result<ASKFCM, IllegalStateException>)
    ensures r == Success(ASKFCM(c, second, true, Some(bundle)))
  {
    var builder := new Builder();
    builder := builder.SetTopic(first);
    builder := builder.EnableAnalytics(false);
    builder := builder.SetContext(c);
    builder := builder.AnalyticsBundle(bundle);
    builder := builder.SetTopic(second);
    builder := builder.EnableAnalytics(true);
    r := builder.Build();
  }
}
