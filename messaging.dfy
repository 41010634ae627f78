/**
 * The inbound message router (`ASKFCMService`). For every push message it first consults
 * the "received" analytics slot, then checks the payload, decides whether the promoted
 * package is installed, consults one promotion slot, picks the tap target (open the app,
 * or its store listing), posts the notification and requests its images.
 *
 * Each effectful method is tied to a function that gives the platform calls it makes;
 * the lemmas at the end state what the router promises in terms of those functions.
 */
module Messaging {
  import opened Wrappers
  import opened FCMHelper
  import opened DataStore
  import opened Platform

  // Payload keys, exact and case-sensitive.
  const APP_ICON: string := "appIcon"
  const TITLE: string := "title"
  const BODY: string := "body"
  const FEATURE_GRAPHIC: string := "featureGraphic"
  const PACKAGE_NAME: string := "packageName"

  // Store listing URIs.
  const MARKET_DETAILS: string := "market://details?id="
  // Written in two pieces: the verifier cannot look at single characters of a literal this long,
  // and the round-trip proof needs to see that the two listing URIs start differently.
  const WEB_DETAILS: string := "https://play.google.com/store/apps/" + "details?id="

  /** Every notification is posted under the first value of a freshly made counter. */
  const FIRST_COUNTER_VALUE: int := 1

  function MarketUri(packageName: string): string
  {
    MARKET_DETAILS + packageName
  }

  function WebStoreUri(packageName: string): string
  {
    WEB_DETAILS + packageName
  }

  /** The package a store listing URI points at, recognising both listing forms. */
  function ListedPackage(uri: string): Option<string>
  {
    if MARKET_DETAILS <= uri then Some(uri[|MARKET_DETAILS|..])
    else if WEB_DETAILS <= uri then Some(uri[|WEB_DETAILS|..])
    else None
  }

  /** Both listing URIs name the package they were built from, and they differ. */
  lemma StoreUriRoundTrip(packageName: string)
    ensures ListedPackage(MarketUri(packageName)) == Some(packageName)
    ensures ListedPackage(WebStoreUri(packageName)) == Some(packageName)
    ensures MarketUri(packageName) != WebStoreUri(packageName)
  {
    var m, w := MarketUri(packageName), WebStoreUri(packageName);
    assert MARKET_DETAILS <= m && m[|MARKET_DETAILS|..] == packageName;
    assert w[0] == 'h';
    assert !(MARKET_DETAILS <= w);
    assert WEB_DETAILS <= w && w[|WEB_DETAILS|..] == packageName;
  }

  /** `isAppInstalled`: an unknown package is not installed; a known one is iff it is enabled. */
  function IsAppInstalled(packages: map<string, AppInfo>, packageName: string): (r: bool)
    ensures packageName !in packages ==> !r
    ensures packageName in packages ==> (r <==> packages[packageName].enabled)
  {
    if packageName in packages then packages[packageName].enabled else false
  }

  /**
   * `createPlayStoreIntent`: a VIEW of the package's market listing, or of its web listing when
   * building the market intent throws ActivityNotFoundException.
   */
  function CreatePlayStoreIntent(packageName: string, activityNotFound: bool): (r: Intent)
    ensures r.ActionView? && ListedPackage(r.uri) == Some(packageName)
    ensures r.uri == MarketUri(packageName) <==> !activityNotFound
  {
    StoreUriRoundTrip(packageName);
    if !activityNotFound then ActionView(MarketUri(packageName)) else ActionView(WebStoreUri(packageName))
  }

  /** `createOpenAppIntent`: the package's launch intent when it has one, else its store intent. */
  function CreateOpenAppIntent(packages: map<string, AppInfo>, packageName: string, activityNotFound: bool): (r: Intent)
    ensures packageName in packages && packages[packageName].launchIntent.Some? ==>
              r == packages[packageName].launchIntent.value
    ensures packageName !in packages || packages[packageName].launchIntent.None? ==>
              r == CreatePlayStoreIntent(packageName, activityNotFound)
  {
    if packageName in packages && packages[packageName].launchIntent.Some? then
      packages[packageName].launchIntent.value
    else
      CreatePlayStoreIntent(packageName, activityNotFound)
  }

  /** The fields `processMessage` takes from an accepted payload. */
  datatype Payload = Payload(icon: string, title: string, body: string, image: Option<string>, packageName: string)

  /** The payload is accepted: icon, title and body present (possibly empty), package name present and non-empty. */
  predicate Accepted(data: map<string, string>)
  {
    APP_ICON in data && TITLE in data && BODY in data && PACKAGE_NAME in data && data[PACKAGE_NAME] != ""
  }

  /** The early-return chain of `processMessage` and its package-name guard. */
  function ParsePayload(data: map<string, string>): (r: Option<Payload>)
    ensures r.Some? <==> Accepted(data)
    ensures r.Some? ==> r.value.icon == data[APP_ICON] && r.value.title == data[TITLE]
                        && r.value.body == data[BODY] && r.value.packageName == data[PACKAGE_NAME]
    ensures r.Some? ==> (r.value.image.Some? <==> FEATURE_GRAPHIC in data)
    ensures r.Some? && FEATURE_GRAPHIC in data ==> r.value.image == Some(data[FEATURE_GRAPHIC])
  {
    if APP_ICON !in data then None
    else if TITLE !in data then None
    else if BODY !in data then None
    else
      var image := if FEATURE_GRAPHIC in data then Some(data[FEATURE_GRAPHIC]) else None;
      var packageName := if PACKAGE_NAME in data then Some(data[PACKAGE_NAME]) else None;
      if packageName.Some? && packageName.value != "" then
        Some(Payload(data[APP_ICON], data[TITLE], data[BODY], image, packageName.value))
      else None
  }

  /** `printAnalytics`: the calls it makes for a (nullable) event name. */
  function AnalyticsEffects(prefs: Prefs, message: Option<string>): seq<Effect>
  {
    if !BoolOr(prefs, IS_ANALYTICS_ENABLED, false) then []
    else if message.Some? then [LogEvent(message.value)]
    else []
  }

  /** The promotion slot consulted for a package that is (not) installed; the names are swapped in the source. */
  function PromotionSlot(installed: bool): string
  {
    if !installed then ON_PROMOTION_APP_INSTALLED else ON_PROMOTION_APP_NOT_INSTALLED
  }

  /** The intent a tap on the notification starts. */
  function TapIntent(packages: map<string, AppInfo>, packageName: string, activityNotFound: bool): Intent
  {
    if !IsAppInstalled(packages, packageName) then CreatePlayStoreIntent(packageName, activityNotFound)
    else CreateOpenAppIntent(packages, packageName, activityNotFound)
  }

  /** `loadImagesIntoViews`: the icon is always requested, the feature image only when non-empty. */
  function ImageEffects(icon: string, image: Option<string>, id: int): seq<Effect>
  {
    [LoadImage(icon, AppIconView, id)]
    + (if image.Some? && image.value != "" then [LoadImage(image.value, FeatureGraphicView, id)] else [])
  }

  /** `sendNotification`: promotion analytics, the post under the counter's first value, the image requests. */
  function NotificationEffects(prefs: Prefs, packages: map<string, AppInfo>, activityNotFound: bool, p: Payload): seq<Effect>
  {
    var installed := IsAppInstalled(packages, p.packageName);
    AnalyticsEffects(prefs, Some(StringOr(prefs, PromotionSlot(installed), "")))
    + [Notify(Notification(FIRST_COUNTER_VALUE, p.title, p.body, TapIntent(packages, p.packageName, activityNotFound)))]
    + ImageEffects(p.icon, p.image, FIRST_COUNTER_VALUE)
  }

  /** `processMessage` */
  function ProcessEffects(prefs: Prefs, packages: map<string, AppInfo>, activityNotFound: bool, data: map<string, string>): seq<Effect>
  {
    match ParsePayload(data)
    case None => []
    case Some(p) => NotificationEffects(prefs, packages, activityNotFound, p)
  }

  /** `onMessageReceived` */
  function MessageEffects(prefs: Prefs, packages: map<string, AppInfo>, activityNotFound: bool, data: map<string, string>): seq<Effect>
  {
    AnalyticsEffects(prefs, Some(StringOr(prefs, ON_RECEIVE_EVENT, "")))
    + (if data != map[] then ProcessEffects(prefs, packages, activityNotFound, data) else [])
  }

  /** The calls made for a run of messages delivered one after another while the store and packages stay put. */
  function ServiceRun(prefs: Prefs, packages: map<string, AppInfo>, activityNotFound: bool, msgs: seq<map<string, string>>): seq<Effect>
  {
    if msgs == [] then []
    else ServiceRun(prefs, packages, activityNotFound, msgs[..|msgs| - 1])
         + MessageEffects(prefs, packages, activityNotFound, msgs[|msgs| - 1])
  }

  /** What consulting one event slot logs: the slot's stored name ("" when unset), only when analytics is on. */
  function SlotLog(prefs: Prefs, slot: string): seq<string>
  {
    if BoolOr(prefs, IS_ANALYTICS_ENABLED, false) then [StringOr(prefs, slot, "")] else []
  }

  /**
   * `printAnalytics` logs at most one event: none when the stored flag is false or was never
   * written, none for a null name, and otherwise exactly the name it was given.
   */
  lemma AnalyticsGate(prefs: Prefs, message: Option<string>)
    ensures IS_ANALYTICS_ENABLED !in prefs ==> AnalyticsEffects(prefs, message) == []
    ensures AnalyticsEffects(prefs, message) != [] <==> BoolOr(prefs, IS_ANALYTICS_ENABLED, false) && message.Some?
    ensures AnalyticsEffects(prefs, message) != [] ==> AnalyticsEffects(prefs, message) == [LogEvent(message.value)]
    ensures Notices(AnalyticsEffects(prefs, message)) == []
    ensures Events(AnalyticsEffects(prefs, message)) == if AnalyticsEffects(prefs, message) == [] then [] else [message.value]
  {
    var t := AnalyticsEffects(prefs, message);
    if t != [] {
      assert t[..0] == [];
    }
  }

  /** With analytics on, a slot the bundle never filled logs the empty event name. */
  lemma UnconfiguredSlotLogsEmptyName(prefs: Prefs, slot: string)
    requires BoolOr(prefs, IS_ANALYTICS_ENABLED, false) && slot !in prefs
    ensures AnalyticsEffects(prefs, Some(StringOr(prefs, slot, ""))) == [LogEvent("")]
    ensures SlotLog(prefs, slot) == [""]
  {
  }

  /** `loadImagesIntoViews` asks for the icon first, then for the feature image only when it is non-empty; both under the given id. */
  lemma ImageRequests(icon: string, image: Option<string>, id: int)
    ensures ImageEffects(icon, image, id)[0] == LoadImage(icon, AppIconView, id)
    ensures |ImageEffects(icon, image, id)| == if image.Some? && image.value != "" then 2 else 1
    ensures image.Some? && image.value != "" ==> ImageEffects(icon, image, id)[1] == LoadImage(image.value, FeatureGraphicView, id)
    ensures forall e :: e in ImageEffects(icon, image, id) ==> e.LoadImage? && e.notificationId == id
    ensures Notices(ImageEffects(icon, image, id)) == [] && Events(ImageEffects(icon, image, id)) == []
  {
    NeitherPostsNorLogs(ImageEffects(icon, image, id));
  }

  /** One `sendNotification` consults exactly one promotion slot: the one for the package's install state. */
  lemma {:induction false} SendNotificationEvents(prefs: Prefs, packages: map<string, AppInfo>, activityNotFound: bool, p: Payload)
    ensures Events(NotificationEffects(prefs, packages, activityNotFound, p))
            == SlotLog(prefs, PromotionSlot(IsAppInstalled(packages, p.packageName)))
  {
    var slot := PromotionSlot(IsAppInstalled(packages, p.packageName));
    var a := AnalyticsEffects(prefs, Some(StringOr(prefs, slot, "")));
    var posted := Notify(Notification(FIRST_COUNTER_VALUE, p.title, p.body, TapIntent(packages, p.packageName, activityNotFound)));
    var img := ImageEffects(p.icon, p.image, FIRST_COUNTER_VALUE);
    assert NotificationEffects(prefs, packages, activityNotFound, p) == a + [posted] + img;
    AnalyticsGate(prefs, Some(StringOr(prefs, slot, "")));
    ImageRequests(p.icon, p.image, FIRST_COUNTER_VALUE);
    OneEffect(posted);
    SplitAround(a, posted, img);
  }

  /** One `sendNotification` posts exactly one notification: id 1, the payload's title and body, the routed tap intent. */
  lemma {:induction false} SendNotificationNotices(prefs: Prefs, packages: map<string, AppInfo>, activityNotFound: bool, p: Payload)
    ensures Notices(NotificationEffects(prefs, packages, activityNotFound, p))
            == [Notification(FIRST_COUNTER_VALUE, p.title, p.body, TapIntent(packages, p.packageName, activityNotFound))]
  {
    var slot := PromotionSlot(IsAppInstalled(packages, p.packageName));
    var a := AnalyticsEffects(prefs, Some(StringOr(prefs, slot, "")));
    var posted := Notify(Notification(FIRST_COUNTER_VALUE, p.title, p.body, TapIntent(packages, p.packageName, activityNotFound)));
    var img := ImageEffects(p.icon, p.image, FIRST_COUNTER_VALUE);
    assert NotificationEffects(prefs, packages, activityNotFound, p) == a + [posted] + img;
    AnalyticsGate(prefs, Some(StringOr(prefs, slot, "")));
    ImageRequests(p.icon, p.image, FIRST_COUNTER_VALUE);
    OneEffect(posted);
    SplitAround(a, posted, img);
  }

  /**
   * The analytics log of one message: the "received" slot always, then, for an accepted payload
   * only, the promotion slot chosen by whether the package is installed.
   */
  lemma {:induction false} MessageAnalytics(prefs: Prefs, packages: map<string, AppInfo>, activityNotFound: bool, data: map<string, string>)
    ensures Events(MessageEffects(prefs, packages, activityNotFound, data))
            == SlotLog(prefs, ON_RECEIVE_EVENT)
               + (if Accepted(data) then SlotLog(prefs, PromotionSlot(IsAppInstalled(packages, data[PACKAGE_NAME]))) else [])
  {
    var received := AnalyticsEffects(prefs, Some(StringOr(prefs, ON_RECEIVE_EVENT, "")));
    var rest := if data != map[] then ProcessEffects(prefs, packages, activityNotFound, data) else [];
    AnalyticsGate(prefs, Some(StringOr(prefs, ON_RECEIVE_EVENT, "")));
    EventsAppend(received, rest);
    if Accepted(data) {
      assert APP_ICON in data;
      SendNotificationEvents(prefs, packages, activityNotFound, ParsePayload(data).value);
    }
  }

  /**
   * A message is posted iff its payload is accepted (empty icon, title and body are accepted; an
   * absent or empty package name is not), and then exactly once, under id 1, with the payload's
   * title and body and the routed tap intent.
   */
  lemma {:induction false} MessagePosts(prefs: Prefs, packages: map<string, AppInfo>, activityNotFound: bool, data: map<string, string>)
    ensures Notices(MessageEffects(prefs, packages, activityNotFound, data))
            == if Accepted(data)
               then [Notification(1, data[TITLE], data[BODY], TapIntent(packages, data[PACKAGE_NAME], activityNotFound))]
               else []
  {
    var received := AnalyticsEffects(prefs, Some(StringOr(prefs, ON_RECEIVE_EVENT, "")));
    var rest := if data != map[] then ProcessEffects(prefs, packages, activityNotFound, data) else [];
    AnalyticsGate(prefs, Some(StringOr(prefs, ON_RECEIVE_EVENT, "")));
    NoticesAppend(received, rest);
    if Accepted(data) {
      assert APP_ICON in data;
      SendNotificationNotices(prefs, packages, activityNotFound, ParsePayload(data).value);
    }
  }

  /**
   * The "received" slot is consulted before the payload is looked at, for every message including
   * one with an empty data map; with analytics off a message logs nothing at all.
   */
  lemma ReceivedSlotFirst(prefs: Prefs, packages: map<string, AppInfo>, activityNotFound: bool, data: map<string, string>)
    ensures BoolOr(prefs, IS_ANALYTICS_ENABLED, false) ==>
              |MessageEffects(prefs, packages, activityNotFound, data)| > 0
              && MessageEffects(prefs, packages, activityNotFound, data)[0] == LogEvent(StringOr(prefs, ON_RECEIVE_EVENT, ""))
    ensures !BoolOr(prefs, IS_ANALYTICS_ENABLED, false) ==> Events(MessageEffects(prefs, packages, activityNotFound, data)) == []
    ensures data == map[] ==> MessageEffects(prefs, packages, activityNotFound, data) == AnalyticsEffects(prefs, Some(StringOr(prefs, ON_RECEIVE_EVENT, "")))
  {
    MessageAnalytics(prefs, packages, activityNotFound, data);
  }

  /**
   * Routing of an accepted message: a package that is not installed gets the store listing as tap
   * target and the ON_PROMOTION_APP_INSTALLED slot; an installed one gets its launch intent (or the
   * store listing when it has none) and the ON_PROMOTION_APP_NOT_INSTALLED slot.
   */
  lemma Routing(prefs: Prefs, packages: map<string, AppInfo>, activityNotFound: bool, data: map<string, string>)
    requires Accepted(data)
    ensures var pkg, t := data[PACKAGE_NAME], MessageEffects(prefs, packages, activityNotFound, data);
      && |Notices(t)| == 1
      && (!IsAppInstalled(packages, pkg) ==>
            && Events(t) == SlotLog(prefs, ON_RECEIVE_EVENT) + SlotLog(prefs, ON_PROMOTION_APP_INSTALLED)
            && Notices(t)[0].contentIntent == CreatePlayStoreIntent(pkg, activityNotFound))
      && (IsAppInstalled(packages, pkg) ==>
            && Events(t) == SlotLog(prefs, ON_RECEIVE_EVENT) + SlotLog(prefs, ON_PROMOTION_APP_NOT_INSTALLED)
            && Notices(t)[0].contentIntent == CreateOpenAppIntent(packages, pkg, activityNotFound))
  {
    MessageAnalytics(prefs, packages, activityNotFound, data);
    MessagePosts(prefs, packages, activityNotFound, data);
  }

  /** Present-but-empty icon, title and body pass validation, and the message is posted. */
  lemma EmptyTextsAccepted(prefs: Prefs, packages: map<string, AppInfo>, activityNotFound: bool, data: map<string, string>)
    requires data == map[APP_ICON := "", TITLE := "", BODY := "", PACKAGE_NAME := "com.foo.bar"]
    ensures |Notices(MessageEffects(prefs, packages, activityNotFound, data))| == 1
    ensures Notices(MessageEffects(prefs, packages, activityNotFound, data))[0].title == ""
  {
    MessagePosts(prefs, packages, activityNotFound, data);
  }

  /** Whether and what is posted, and what is logged, never depends on `featureGraphic`. */
  lemma FeatureGraphicNeverDecides(prefs: Prefs, packages: map<string, AppInfo>, activityNotFound: bool,
                                   data: map<string, string>, image: string)
    ensures var withImage, without := data[FEATURE_GRAPHIC := image], data - {FEATURE_GRAPHIC};
      && Notices(MessageEffects(prefs, packages, activityNotFound, withImage))
         == Notices(MessageEffects(prefs, packages, activityNotFound, without))
      && Events(MessageEffects(prefs, packages, activityNotFound, withImage))
         == Events(MessageEffects(prefs, packages, activityNotFound, without))
  {
    var withImage, without := data[FEATURE_GRAPHIC := image], data - {FEATURE_GRAPHIC};
    assert |FEATURE_GRAPHIC| == 14 && |APP_ICON| == 7 && |TITLE| == 5 && |BODY| == 4 && |PACKAGE_NAME| == 11;
    assert Accepted(withImage) == Accepted(without);
    MessagePosts(prefs, packages, activityNotFound, withImage);
    MessagePosts(prefs, packages, activityNotFound, without);
    MessageAnalytics(prefs, packages, activityNotFound, withImage);
    MessageAnalytics(prefs, packages, activityNotFound, without);
  }

  /** One `sendNotification` posts and requests images under id 1 only: icon always, feature image when non-empty. */
  lemma SendNotificationIds(prefs: Prefs, packages: map<string, AppInfo>, activityNotFound: bool, p: Payload)
    ensures forall e :: e in NotificationEffects(prefs, packages, activityNotFound, p) && e.Notify? ==> e.notification.id == 1
    ensures forall e :: e in NotificationEffects(prefs, packages, activityNotFound, p) && e.LoadImage? ==> e.notificationId == 1
    ensures LoadImage(p.icon, AppIconView, 1) in NotificationEffects(prefs, packages, activityNotFound, p)
    ensures p.image.Some? && p.image.value != "" ==>
              LoadImage(p.image.value, FeatureGraphicView, 1) in NotificationEffects(prefs, packages, activityNotFound, p)
    ensures !(p.image.Some? && p.image.value != "") ==>
              forall e :: e in NotificationEffects(prefs, packages, activityNotFound, p) ==> !(e.LoadImage? && e.view == FeatureGraphicView)
  {
    var slot := PromotionSlot(IsAppInstalled(packages, p.packageName));
    var promotion := AnalyticsEffects(prefs, Some(StringOr(prefs, slot, "")));
    var posted := Notify(Notification(FIRST_COUNTER_VALUE, p.title, p.body, TapIntent(packages, p.packageName, activityNotFound)));
    var images := ImageEffects(p.icon, p.image, FIRST_COUNTER_VALUE);
    AnalyticsGate(prefs, Some(StringOr(prefs, slot, "")));
    ImageRequests(p.icon, p.image, FIRST_COUNTER_VALUE);
    assert NotificationEffects(prefs, packages, activityNotFound, p) == promotion + [posted] + images;
  }

  /**
   * Every notification and every image request of a message uses id 1; an accepted message always
   * requests its icon, and requests a feature image exactly when a non-empty one was sent.
   */
  lemma {:induction false} NotificationIdAlwaysOne(prefs: Prefs, packages: map<string, AppInfo>, activityNotFound: bool,
                                                  data: map<string, string>)
    ensures forall e :: e in MessageEffects(prefs, packages, activityNotFound, data) && e.Notify? ==> e.notification.id == 1
    ensures forall e :: e in MessageEffects(prefs, packages, activityNotFound, data) && e.LoadImage? ==> e.notificationId == 1
    ensures Accepted(data) ==> LoadImage(data[APP_ICON], AppIconView, 1) in MessageEffects(prefs, packages, activityNotFound, data)
    ensures Accepted(data) && FEATURE_GRAPHIC in data && data[FEATURE_GRAPHIC] != "" ==>
              LoadImage(data[FEATURE_GRAPHIC], FeatureGraphicView, 1) in MessageEffects(prefs, packages, activityNotFound, data)
    ensures !(Accepted(data) && FEATURE_GRAPHIC in data && data[FEATURE_GRAPHIC] != "") ==>
              forall e :: e in MessageEffects(prefs, packages, activityNotFound, data) ==> !(e.LoadImage? && e.view == FeatureGraphicView)
  {
    var t := MessageEffects(prefs, packages, activityNotFound, data);
    var received := AnalyticsEffects(prefs, Some(StringOr(prefs, ON_RECEIVE_EVENT, "")));
    AnalyticsGate(prefs, Some(StringOr(prefs, ON_RECEIVE_EVENT, "")));
    if !Accepted(data) {
      assert t == received;
    } else {
      assert APP_ICON in data;
      var p := ParsePayload(data).value;
      SendNotificationIds(prefs, packages, activityNotFound, p);
      assert t == received + NotificationEffects(prefs, packages, activityNotFound, p);
    }
  }

  /** Over any run of messages every notification is posted under id 1, at most one per message. */
  lemma {:induction false} RunPostsUnderIdOne(prefs: Prefs, packages: map<string, AppInfo>, activityNotFound: bool,
                                             msgs: seq<map<string, string>>)
    ensures forall n :: n in Notices(ServiceRun(prefs, packages, activityNotFound, msgs)) ==> n.id == 1
    ensures |Notices(ServiceRun(prefs, packages, activityNotFound, msgs))| <= |msgs|
  {
    if msgs != [] {
      var before := ServiceRun(prefs, packages, activityNotFound, msgs[..|msgs| - 1]);
      var last := MessageEffects(prefs, packages, activityNotFound, msgs[|msgs| - 1]);
      assert ServiceRun(prefs, packages, activityNotFound, msgs) == before + last;
      RunPostsUnderIdOne(prefs, packages, activityNotFound, msgs[..|msgs| - 1]);
      MessagePosts(prefs, packages, activityNotFound, msgs[|msgs| - 1]);
      NoticesAppend(before, last);
      var posted := Notices(last);
      assert forall n :: n in posted ==> n.id == 1;
    }
  }

  /**
   * Because every notification goes out under id 1, each new one replaces the one before: after
   * any run of messages the notification manager's table holds at most one notification of the
   * library, the last one posted (dismissals are not modelled).
   */
  lemma AtMostOneNotificationShown(prefs: Prefs, packages: map<string, AppInfo>, activityNotFound: bool,
                                   msgs: seq<map<string, string>>)
    ensures var t := ServiceRun(prefs, packages, activityNotFound, msgs);
      && |Displayed(t).Keys| <= 1
      && (Notices(t) != [] ==> Displayed(t) == map[1 := Notices(t)[|Notices(t)| - 1]])
  {
    var t := ServiceRun(prefs, packages, activityNotFound, msgs);
    RunPostsUnderIdOne(prefs, packages, activityNotFound, msgs);
    assert forall i :: 0 <= i < |Notices(t)| ==> Notices(t)[i] in Notices(t);
    DisplayedUnderOneId(t, 1);
  }

  /** A package that is not installed: the tap opens its market listing. */
  lemma StoreScenario(prefs: Prefs, packages: map<string, AppInfo>, data: map<string, string>)
    requires data == map[APP_ICON := "http://x/i.png", TITLE := "Hi", BODY := "Try our app", PACKAGE_NAME := "com.foo.bar"]
    requires "com.foo.bar" !in packages
    ensures Notices(MessageEffects(prefs, packages, false, data))
            == [Notification(1, "Hi", "Try our app", ActionView("market://details?id=com.foo.bar"))]
    ensures LoadImage("http://x/i.png", AppIconView, 1) in MessageEffects(prefs, packages, false, data)
  {
    assert Accepted(data) && data[TITLE] == "Hi" && data[BODY] == "Try our app";
    assert MarketUri("com.foo.bar") == "market://details?id=com.foo.bar";
    MessagePosts(prefs, packages, false, data);
    NotificationIdAlwaysOne(prefs, packages, false, data);
  }

  /** The same payload for an installed package with a launch intent: that intent, no store listing. */
  lemma LaunchScenario(prefs: Prefs, packages: map<string, AppInfo>, data: map<string, string>, launch: Intent)
    requires data == map[APP_ICON := "http://x/i.png", TITLE := "Hi", BODY := "Try our app", PACKAGE_NAME := "com.foo.bar"]
    requires "com.foo.bar" in packages && packages["com.foo.bar"] == AppInfo(true, Some(launch))
    ensures Notices(MessageEffects(prefs, packages, false, data)) == [Notification(1, "Hi", "Try our app", launch)]
  {
    MessagePosts(prefs, packages, false, data);
  }

  /** `java.util.concurrent.atomic.AtomicInteger`, as far as the router uses it. */
  class AtomicInteger {
    var value: int

    constructor ()
      ensures value == 0
    {
      value := 0;
    }

    method IncrementAndGet() returns (r: int)
      modifies this
      ensures value == old(value) + 1 && r == value
    {
      value := value + 1;
      r := value;
    }
  }

  class ASKFCMService {
    const context: Context

    constructor (context: Context)
      ensures this.context == context
    {
      this.context := context;
    }

    method OnMessageReceived(data: map<string, string>)
      modifies context`trace
      ensures context.trace == old(context.trace)
                + MessageEffects(context.dataStore.prefs, context.packages, context.activityNotFound, data)
    {
      ghost var before, prefs := context.trace, context.dataStore.prefs;
      ghost var logged := AnalyticsEffects(prefs, Some(StringOr(prefs, ON_RECEIVE_EVENT, "")));
      ghost var processed := ProcessEffects(prefs, context.packages, context.activityNotFound, data);
      var received := context.dataStore.GetString(ON_RECEIVE_EVENT);
      PrintAnalytics(Some(received));
      assert context.trace == before + logged;
      if data != map[] {
        ProcessMessage(data);
        AppendInSteps(before, logged, processed);
        assert context.trace == before + (logged + processed);
      }
    }

    method ProcessMessage(data: map<string, string>)
      modifies context`trace
      ensures context.trace == old(context.trace)
                + ProcessEffects(context.dataStore.prefs, context.packages, context.activityNotFound, data)
    {
      var payload := ParsePayload(data);
      if payload.Some? {
        var p := payload.value;
        SendNotification(p.icon, p.title, p.body, p.image, p.packageName);
        assert p == Payload(p.icon, p.title, p.body, p.image, p.packageName);
      }
    }

    method SendNotification(icon: string, title: string, shortDesc: string, image: Option<string>, storePackage: string)
      modifies context`trace
      ensures context.trace == old(context.trace)
                + NotificationEffects(context.dataStore.prefs, context.packages, context.activityNotFound,
                                      Payload(icon, title, shortDesc, image, storePackage))
    {
      ghost var before, prefs := context.trace, context.dataStore.prefs;
      ghost var installed := IsAppInstalled(context.packages, storePackage);
      ghost var promotion := AnalyticsEffects(prefs, Some(StringOr(prefs, PromotionSlot(installed), "")));
      ghost var tap := TapIntent(context.packages, storePackage, context.activityNotFound);
      ghost var expected := NotificationEffects(prefs, context.packages, context.activityNotFound,
                                                Payload(icon, title, shortDesc, image, storePackage));
      assert expected == promotion + [Notify(Notification(FIRST_COUNTER_VALUE, title, shortDesc, tap))]
                         + ImageEffects(icon, image, FIRST_COUNTER_VALUE);
      var intent: Intent;
      if !IsAppInstalled(context.packages, storePackage) {
        var slot := context.dataStore.GetString(ON_PROMOTION_APP_INSTALLED);
        assert slot == StringOr(prefs, PromotionSlot(installed), "");
        PrintAnalytics(Some(slot));
        intent := CreatePlayStoreIntent(storePackage, context.activityNotFound);
      } else {
        var slot := context.dataStore.GetString(ON_PROMOTION_APP_NOT_INSTALLED);
        assert slot == StringOr(prefs, PromotionSlot(installed), "");
        PrintAnalytics(Some(slot));
        intent := CreateOpenAppIntent(context.packages, storePackage, context.activityNotFound);
      }
      assert context.trace == before + promotion;
      assert intent == tap;
      var counter := new AtomicInteger();
      var notificationId := counter.IncrementAndGet();
      var posted := Notify(Notification(notificationId, title, shortDesc, intent));
      context.Emit(posted);
      AppendInSteps(before, promotion, [posted]);
      LoadImagesIntoViews(icon, image, notificationId);
      AppendInSteps(before, promotion + [posted], ImageEffects(icon, image, FIRST_COUNTER_VALUE));
    }

    method LoadImagesIntoViews(icon: string, image: Option<string>, notificationId: int)
      modifies context`trace
      ensures context.trace == old(context.trace) + ImageEffects(icon, image, notificationId)
    {
      context.Emit(LoadImage(icon, AppIconView, notificationId));
      if image.Some? && image.value != "" {
        context.Emit(LoadImage(image.value, FeatureGraphicView, notificationId));
      }
    }

    method PrintAnalytics(message: Option<string>)
      modifies context`trace
      ensures context.trace == old(context.trace) + AnalyticsEffects(context.dataStore.prefs, message)
    {
      var enabled := context.dataStore.GetBoolean(IS_ANALYTICS_ENABLED);
      if !enabled {
        return;
      }
      if message.Some? {
        context.Emit(LogEvent(message.value));
      }
    }
  }
}
