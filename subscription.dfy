/**
 * The subscription manager (`ASKFCMBuilderImp`): persists the analytics configuration into
 * the preference store, creates the default notification channel when it is missing, and
 * starts the messaging backend and the topic subscription.
 */
module Subscription {
  import opened Wrappers
  import opened FCMHelper
  import opened DataStore
  import opened Platform

  /** An analytics bundle, reduced to its string entries: `getString(key)` is the entry, or null. */
  type Bundle = map<string, string>

  /** `mAnalyticsBundle?.getString(key)` */
  function BundleString(bundle: Option<Bundle>, key: string): Option<string>
  {
    if bundle.Some? && key in bundle.value then Some(bundle.value[key]) else None
  }

  /** One `if (value != null) saveString(key, value)` step. */
  function SaveIfPresent(prefs: Prefs, key: string, value: Option<string>): Prefs
  {
    if value.Some? then prefs[key := StringPref(value.value)] else prefs
  }

  /** The store after `addAnalytics`: the flag, then the three event names when analytics is on and a bundle is set. */
  function AnalyticsSettings(prefs: Prefs, enableAnalytics: bool, bundle: Option<Bundle>): Prefs
  {
    var flagged := prefs[IS_ANALYTICS_ENABLED := BoolPref(enableAnalytics)];
    if enableAnalytics && bundle.Some? then
      var p1 := SaveIfPresent(flagged, ON_RECEIVE_EVENT, BundleString(bundle, ON_RECEIVE_EVENT));
      var p2 := SaveIfPresent(p1, ON_PROMOTION_APP_INSTALLED, BundleString(bundle, ON_PROMOTION_APP_INSTALLED));
      SaveIfPresent(p2, ON_PROMOTION_APP_NOT_INSTALLED, BundleString(bundle, ON_PROMOTION_APP_NOT_INSTALLED))
    else
      flagged
  }

  /**
   * Key-by-key description of what `addAnalytics` leaves in the store: the flag always holds
   * `enableAnalytics`; an event slot holds the bundle's value when analytics is on and the
   * bundle has a value for it; every other key, and every slot not written, keeps its old entry.
   */
  function SettingAt(prefs: Prefs, enableAnalytics: bool, bundle: Option<Bundle>, key: string): Option<PrefValue>
  {
    if key == IS_ANALYTICS_ENABLED then Some(BoolPref(enableAnalytics))
    else if IsEventSlot(key) && enableAnalytics && BundleString(bundle, key).Some? then
      Some(StringPref(BundleString(bundle, key).value))
    else if key in prefs then Some(prefs[key])
    else None
  }

  /** The entry a store holds under a key, if any. */
  function Entry(prefs: Prefs, key: string): Option<PrefValue>
  {
    if key in prefs then Some(prefs[key]) else None
  }

  /** `addAnalytics` writes exactly what `SettingAt` describes, key by key. */
  lemma AnalyticsSettingsByKey(prefs: Prefs, enableAnalytics: bool, bundle: Option<Bundle>, key: string)
    ensures Entry(AnalyticsSettings(prefs, enableAnalytics, bundle), key) == SettingAt(prefs, enableAnalytics, bundle, key)
  {
    KeysDistinct();
  }

  /** The flag is always written; with analytics off or no bundle nothing else is. */
  lemma AnalyticsFlagAlwaysWritten(prefs: Prefs, enableAnalytics: bool, bundle: Option<Bundle>)
    ensures var r := AnalyticsSettings(prefs, enableAnalytics, bundle);
      IS_ANALYTICS_ENABLED in r && r[IS_ANALYTICS_ENABLED] == BoolPref(enableAnalytics)
    ensures !enableAnalytics || bundle.None? ==>
              AnalyticsSettings(prefs, enableAnalytics, bundle) == prefs[IS_ANALYTICS_ENABLED := BoolPref(enableAnalytics)]
  {
    AnalyticsSettingsByKey(prefs, enableAnalytics, bundle, IS_ANALYTICS_ENABLED);
  }

  /** The keys of the store after `addAnalytics`: the old ones, the flag, and the slots the bundle filled. */
  lemma AnalyticsSettingsKeys(prefs: Prefs, enableAnalytics: bool, bundle: Option<Bundle>)
    ensures AnalyticsSettings(prefs, enableAnalytics, bundle).Keys
            == prefs.Keys + {IS_ANALYTICS_ENABLED}
               + (if enableAnalytics && bundle.Some? then set k | k in bundle.value && IsEventSlot(k) else {})
  {
    var r := AnalyticsSettings(prefs, enableAnalytics, bundle);
    var expected := prefs.Keys + {IS_ANALYTICS_ENABLED}
                    + (if enableAnalytics && bundle.Some? then set k | k in bundle.value && IsEventSlot(k) else {});
    forall k ensures k in r <==> k in expected {
      AnalyticsSettingsByKey(prefs, enableAnalytics, bundle, k);
      assert k in r <==> Entry(r, k).Some?;
    }
  }

  /** Running `addAnalytics` twice leaves the store as running it once. */
  lemma {:induction false} AnalyticsSettingsIdempotent(prefs: Prefs, enableAnalytics: bool, bundle: Option<Bundle>)
    ensures AnalyticsSettings(AnalyticsSettings(prefs, enableAnalytics, bundle), enableAnalytics, bundle)
            == AnalyticsSettings(prefs, enableAnalytics, bundle)
  {
    var once := AnalyticsSettings(prefs, enableAnalytics, bundle);
    var twice := AnalyticsSettings(once, enableAnalytics, bundle);
    forall k
      ensures Entry(twice, k) == Entry(once, k)
    {
      AnalyticsSettingsByKey(prefs, enableAnalytics, bundle, k);
      AnalyticsSettingsByKey(once, enableAnalytics, bundle, k);
    }
    forall k | k in twice || k in once
      ensures k in twice && k in once && twice[k] == once[k]
    {
      assert Entry(twice, k) == Entry(once, k);
    }
  }

  /** The calls `createNotificationChannel` makes: a creation only when no channel with that id exists. */
  function ChannelEffects(channels: set<string>, channelId: string, channelName: string): seq<Effect>
  {
    if channelId in channels then [] else [CreateChannel(channelId, channelName)]
  }

  /** The calls `setupFCMService` makes. */
  function SetupEffects(channels: set<string>, channelId: string, channelName: string, topic: string): seq<Effect>
  {
    [InitializeApp] + ChannelEffects(channels, channelId, channelName) + [SubscribeToTopic(topic)]
  }

  /** After one channel creation the guard makes every further call a no-op. */
  lemma ChannelGuardIdempotent(channels: set<string>, channelId: string, channelName: string)
    ensures |ChannelEffects(channels, channelId, channelName)| <= 1
    ensures ChannelEffects(channels + {channelId}, channelId, channelName) == []
    ensures channels + {channelId} + {channelId} == channels + {channelId}
  {
  }

  /**
   * `setupFCMService` initialises the backend first and requests the subscription last, creates the
   * channel in between only when it is missing, and never logs analytics or posts a notification.
   */
  lemma SetupOrder(channels: set<string>, channelId: string, channelName: string, topic: string)
    ensures var t := SetupEffects(channels, channelId, channelName, topic);
      && t[0] == InitializeApp
      && t[|t| - 1] == SubscribeToTopic(topic)
      && |t| == (if channelId in channels then 2 else 3)
      && (channelId !in channels ==> t[1] == CreateChannel(channelId, channelName))
      && Events(t) == [] && Notices(t) == []
  {
    NeitherPostsNorLogs(SetupEffects(channels, channelId, channelName, topic));
  }

  class ASKFCMBuilderImp {
    const context: Context
    var topic: string
    var enableAnalytics: bool
    var analyticsBundle: Option<Bundle>

    constructor (context: Context, topic: string, enableAnalytics: bool, analyticsBundle: Option<Bundle>)
      ensures this.context == context && this.topic == topic
      ensures this.enableAnalytics == enableAnalytics && this.analyticsBundle == analyticsBundle
    {
      this.context := context;
      this.topic := topic;
      this.enableAnalytics := enableAnalytics;
      this.analyticsBundle := analyticsBundle;
    }

    method AddAnalytics()
      modifies context.dataStore
      ensures context.dataStore.prefs == AnalyticsSettings(old(context.dataStore.prefs), enableAnalytics, analyticsBundle)
    {
      var receiveEvent := BundleString(analyticsBundle, ON_RECEIVE_EVENT);
      var appInstalledEvent := BundleString(analyticsBundle, ON_PROMOTION_APP_INSTALLED);
      var appNotInstalledEvent := BundleString(analyticsBundle, ON_PROMOTION_APP_NOT_INSTALLED);

      context.dataStore.SaveBoolean(IS_ANALYTICS_ENABLED, enableAnalytics);

      if enableAnalytics && analyticsBundle.Some? {
        if receiveEvent.Some? {
          context.dataStore.SaveString(ON_RECEIVE_EVENT, receiveEvent.value);
        }
        if appInstalledEvent.Some? {
          context.dataStore.SaveString(ON_PROMOTION_APP_INSTALLED, appInstalledEvent.value);
        }
        if appNotInstalledEvent.Some? {
          context.dataStore.SaveString(ON_PROMOTION_APP_NOT_INSTALLED, appNotInstalledEvent.value);
        }
      }
    }

    method SetupFCMService()
      modifies context`channels, context`trace
      ensures context.channels == old(context.channels) + {context.channelId}
      ensures context.trace == old(context.trace) + SetupEffects(old(context.channels), context.channelId, context.channelName, topic)
      ensures context.dataStore.prefs == old(context.dataStore.prefs)
    {
      InitializeFirebase();
      CreateNotificationChannel();
      context.Emit(SubscribeToTopic(topic));
    }

    /** Unsubscribing is commented out in the source: the call changes nothing. */
    method RemoveTopic(topic: string)
      ensures unchanged(this, context, context.dataStore)
    {
    }

    /** `FirebaseApp.initializeApp`; a failure is logged and swallowed, so either way setup goes on. */
    method InitializeFirebase()
      modifies context`trace
      ensures context.trace == old(context.trace) + [InitializeApp]
    {
      context.Emit(InitializeApp);
    }

    method CreateNotificationChannel()
      modifies context`channels, context`trace
      ensures context.channels == old(context.channels) + {context.channelId}
      ensures context.trace == old(context.trace) + ChannelEffects(old(context.channels), context.channelId, context.channelName)
    {
      var channelId := context.channelId;
      var channelName := context.channelName;
      var present := context.HasNotificationChannel(channelId);
      if !present {
        context.CreateNotificationChannel(channelId, channelName);
      }
    }
  }
}
