# FCM campaign library — Dafny model

This project models the decision and bookkeeping core of the `campaign` Android library. The library
receives Firebase Cloud Messaging (FCM) campaign messages and shows them as promotion notifications.
It also keeps the analytics configuration in a Jetpack DataStore preference file.

The vendor calls around this core are modelled as abstract state. That covers Firebase, the notification
manager, Picasso and the package manager. The state lives in `Platform.Context`:

- The persisted preferences are held by `DataStore.DataStoreHelper`.
- The installed packages are a `map<string, AppInfo>`. Each entry holds an enabled flag and an optional launch intent.
- The ids of the existing notification channels are a `set<string>`.
- Every call into a vendor API is one `Effect` appended to an ordered trace. These calls are: initialise the
  app, create a channel, subscribe to a topic, log an analytics event, post a notification, and load an image
  into a notification view.

Each imperative method of the library is a Dafny method with a frame. It is proved to append exactly what
a specification function computes from the state it reads. Those functions are in `Messaging` and
`Subscription`. The library's promises are lemmas about the specification functions. Two projections of
the trace carry them:

- `Platform.Events` is the analytics log.
- `Platform.Notices` is the notification log.

Modules:

- `FCMHelper`: the preference and analytics-slot keys.
- `DataStore`: `DataStoreHelper`, a class over a `map<string, PrefValue>`, with typed getters that fall back to a default.
- `Platform`: the context, the effect trace and its two logs, and the notification manager's table by id (dismissals not modelled).
- `Messaging` (`ASKFCMService`): inbound message routing, store and open-app intents, analytics gating, notification ids.
- `Subscription` (`ASKFCMBuilderImp`): analytics persistence, the notification-channel guard, and the setup order.
- `Config` (`ASKFCM`): the `Builder` with its setters and the validating `Build`, and `StartService`.

Behaviour of the code that the model keeps as it is:

- **Notification id.** `sendNotification` creates a fresh `AtomicInteger` for every call
  (ASKFCMService.kt:135). Every notification is therefore posted under id 1 and replaces the previous one
  in the notification manager (`Messaging.AtMostOneNotificationShown`).
- **Analytics before validation.** `onMessageReceived` consults and logs the "received" analytics slot
  before the payload is looked at (ASKFCMService.kt:44-49). This happens for every message, including
  messages with an empty data map and messages that are then dropped.
- **Slot names.** The promotion slot names are swapped relative to the branch taken (ASKFCMService.kt:105-111).
  A package that is not installed consults `ON_PROMOTION_APP_INSTALLED`, and an installed one consults
  `ON_PROMOTION_APP_NOT_INSTALLED`.
- **Image loads.** Both image loads sit in one `try` (ASKFCMService.kt:196-204), so an exception from the
  icon load skips the feature-image load. Load failures are not modelled (see below).

The preference file "ask_fcm" is one store per process (DataStoreHelper.kt:10). The activity context the
builder writes the analytics settings through and the service's own context the router reads them
through are different objects that share it. The model's single `Platform.Context` stands for both.

## Model

| member | source | states |
|---|---|---|
| FCMHelper.KeysDistinct | campaign/src/main/java/com/ask/technologies/campaign/helpers/FCMHelper.kt:11-34 | the analytics flag key and the three event-slot keys are pairwise distinct, so writing one never overwrites another |
| DataStore.DataStoreHelper.constructor | campaign/src/main/java/com/ask/technologies/campaign/helpers/DataStoreHelper.kt:10-12 | a helper opens the persisted preference map as it is |
| DataStore.DataStoreHelper.SaveString | campaign/src/main/java/com/ask/technologies/campaign/helpers/DataStoreHelper.kt:15-20 | the store afterwards is the old store with the key mapped to the string; nothing else changes |
| DataStore.DataStoreHelper.GetString | campaign/src/main/java/com/ask/technologies/campaign/helpers/DataStoreHelper.kt:23-28 | an unwritten key reads the default ("" unless given); otherwise the stored string is read |
| DataStore.DataStoreHelper.SaveInt | campaign/src/main/java/com/ask/technologies/campaign/helpers/DataStoreHelper.kt:31-36 | the key is mapped to the 32-bit integer; nothing else changes |
| DataStore.DataStoreHelper.GetInt | campaign/src/main/java/com/ask/technologies/campaign/helpers/DataStoreHelper.kt:39-44 | an unwritten key reads the default (0 unless given); otherwise the stored integer is read |
| DataStore.DataStoreHelper.SaveBoolean | campaign/src/main/java/com/ask/technologies/campaign/helpers/DataStoreHelper.kt:47-52 | the key is mapped to the boolean; nothing else changes |
| DataStore.DataStoreHelper.GetBoolean | campaign/src/main/java/com/ask/technologies/campaign/helpers/DataStoreHelper.kt:55-60 | an unwritten key reads the default (false unless given); otherwise the stored boolean is read |
| DataStore.DataStoreHelper.SaveLong | campaign/src/main/java/com/ask/technologies/campaign/helpers/DataStoreHelper.kt:79-84 | the key is mapped to the 64-bit integer; nothing else changes |
| DataStore.DataStoreHelper.GetLong | campaign/src/main/java/com/ask/technologies/campaign/helpers/DataStoreHelper.kt:87-92 | an unwritten key reads the default (0 unless given); otherwise the stored long is read |
| DataStore.DataStoreHelper.ClearAll | campaign/src/main/java/com/ask/technologies/campaign/helpers/DataStoreHelper.kt:97-101 | the store is empty afterwards |
| DataStore.SaveThenGet | campaign/src/main/java/com/ask/technologies/campaign/helpers/DataStoreHelper.kt:15-92 | for String, Boolean, Int and Long, a save followed by a get of the same key returns the saved value, whatever the default |
| DataStore.UnwrittenReadsDefault | campaign/src/main/java/com/ask/technologies/campaign/helpers/DataStoreHelper.kt:23-92 | every getter returns the supplied default for a key that was never written |
| DataStore.SaveChangesOnlyItsKey | campaign/src/main/java/com/ask/technologies/campaign/helpers/DataStoreHelper.kt:15-20 | after a save to one key, every other key reads exactly as before, through every typed getter |
| DataStore.LastWriteWins | campaign/src/main/java/com/ask/technologies/campaign/helpers/DataStoreHelper.kt:47-52 | two saves to the same key leave the store as the second save alone |
| DataStore.ClearedReadsDefault | campaign/src/main/java/com/ask/technologies/campaign/helpers/DataStoreHelper.kt:97-101 | after clearing, every getter returns its default for every key |
| Platform.Context.HasNotificationChannel | campaign/src/main/java/com/ask/technologies/campaign/abstraction/ASKFCMBuilderImp.kt:122 | a channel lookup finds the id iff a channel with that id exists |
| Platform.Context.CreateNotificationChannel | campaign/src/main/java/com/ask/technologies/campaign/abstraction/ASKFCMBuilderImp.kt:123-128 | the id joins the channel set and one channel creation is appended to the calls |
| Platform.DisplayedUnderOneId | campaign/src/main/java/com/ask/technologies/campaign/fcm/ASKFCMService.kt:135-136 | when every notification is posted under one id, the notification manager's table by id (dismissals not modelled) holds at most one notification afterwards, and it is the last one posted |
| Messaging.StoreUriRoundTrip | campaign/src/main/java/com/ask/technologies/campaign/fcm/ASKFCMService.kt:172-178 | the market URI and the web-store URI of a package both parse back to that package, and they differ |
| Messaging.IsAppInstalled | campaign/src/main/java/com/ask/technologies/campaign/fcm/ASKFCMService.kt:147-153 | an unknown package is not installed; a known one is installed iff it is enabled |
| Messaging.CreatePlayStoreIntent | campaign/src/main/java/com/ask/technologies/campaign/fcm/ASKFCMService.kt:172-178 | the store intent is a VIEW of a listing of exactly that package, and it is the market listing iff building that one does not throw |
| Messaging.CreateOpenAppIntent | campaign/src/main/java/com/ask/technologies/campaign/fcm/ASKFCMService.kt:161-164 | the package's launch intent when it has one, otherwise the store intent for the same package |
| Messaging.ParsePayload | campaign/src/main/java/com/ask/technologies/campaign/fcm/ASKFCMService.kt:73-87 | a payload is accepted iff icon, title and body are present and the package name is present and non-empty; the accepted fields are the message's values, and the image is present iff `featureGraphic` was sent |
| Messaging.AnalyticsGate | campaign/src/main/java/com/ask/technologies/campaign/fcm/ASKFCMService.kt:207-215 | nothing is logged when the stored flag is false or unset, or for a null name; otherwise exactly the given name is logged, and nothing is posted |
| Messaging.UnconfiguredSlotLogsEmptyName | campaign/src/main/java/com/ask/technologies/campaign/fcm/ASKFCMService.kt:207-215 | with analytics on, consulting a slot that was never configured logs the empty event name |
| Messaging.ImageRequests | campaign/src/main/java/com/ask/technologies/campaign/fcm/ASKFCMService.kt:196-201 | the icon is always requested first; the feature image is requested second iff it is non-null and non-empty; both use the given id; nothing is logged or posted |
| Messaging.SendNotificationEvents | campaign/src/main/java/com/ask/technologies/campaign/fcm/ASKFCMService.kt:105-111 | sending a notification consults exactly one promotion slot: ON_PROMOTION_APP_INSTALLED when the package is not installed, ON_PROMOTION_APP_NOT_INSTALLED when it is |
| Messaging.SendNotificationNotices | campaign/src/main/java/com/ask/technologies/campaign/fcm/ASKFCMService.kt:105-136 | sending a notification posts exactly one notification, under id 1, with the title, body and routed tap intent |
| Messaging.MessageAnalytics | campaign/src/main/java/com/ask/technologies/campaign/fcm/ASKFCMService.kt:44-111 | a message logs the received slot, then the promotion slot for the package's install state only if its payload is accepted |
| Messaging.MessagePosts | campaign/src/main/java/com/ask/technologies/campaign/fcm/ASKFCMService.kt:44-87 | a message posts one notification with its title, body and routed tap intent under id 1 if its payload is accepted, and nothing otherwise (including an empty data map) |
| Messaging.ReceivedSlotFirst | campaign/src/main/java/com/ask/technologies/campaign/fcm/ASKFCMService.kt:44-49 | with analytics on, the first call of every message logs the received slot; with analytics off nothing is logged; an empty data map only reaches the received-slot analytics |
| Messaging.Routing | campaign/src/main/java/com/ask/technologies/campaign/fcm/ASKFCMService.kt:105-111 | for an accepted message: not installed means the ON_PROMOTION_APP_INSTALLED slot and the store intent; installed means the ON_PROMOTION_APP_NOT_INSTALLED slot and the open-app intent |
| Messaging.EmptyTextsAccepted | campaign/src/main/java/com/ask/technologies/campaign/fcm/ASKFCMService.kt:74-76 | present but empty icon, title and body are not rejected: the message is posted with an empty title |
| Messaging.FeatureGraphicNeverDecides | campaign/src/main/java/com/ask/technologies/campaign/fcm/ASKFCMService.kt:77-86 | adding or removing `featureGraphic` changes neither what is posted nor what is logged |
| Messaging.SendNotificationIds | campaign/src/main/java/com/ask/technologies/campaign/fcm/ASKFCMService.kt:135-138 | one notification send posts and loads images under id 1 only; the icon is always requested, and the feature image exactly when it is non-empty |
| Messaging.NotificationIdAlwaysOne | campaign/src/main/java/com/ask/technologies/campaign/fcm/ASKFCMService.kt:135-138 | every notification and image request of a message uses id 1; an accepted message requests its icon, and requests its feature image iff a non-empty one was sent |
| Messaging.RunPostsUnderIdOne | campaign/src/main/java/com/ask/technologies/campaign/fcm/ASKFCMService.kt:135-136 | over any run of messages, every notification is posted under id 1, and there is at most one per message |
| Messaging.AtMostOneNotificationShown | campaign/src/main/java/com/ask/technologies/campaign/fcm/ASKFCMService.kt:135-136 | after any run of messages the notification manager's table by id (dismissals not modelled) holds at most one notification, the last one posted |
| Messaging.StoreScenario | campaign/src/main/java/com/ask/technologies/campaign/fcm/ASKFCMService.kt:105-107 | a concrete message for an unknown package is posted with a tap on `market://details?id=com.foo.bar`, and its icon is requested under id 1 |
| Messaging.LaunchScenario | campaign/src/main/java/com/ask/technologies/campaign/fcm/ASKFCMService.kt:108-110 | the same message for an installed package with a launch intent is posted with that intent as tap target |
| Messaging.AtomicInteger.constructor | campaign/src/main/java/com/ask/technologies/campaign/fcm/ASKFCMService.kt:135 | a fresh counter starts at 0 |
| Messaging.AtomicInteger.IncrementAndGet | campaign/src/main/java/com/ask/technologies/campaign/fcm/ASKFCMService.kt:135 | the counter goes up by one and its new value is returned |
| Messaging.ASKFCMService.constructor | campaign/src/main/java/com/ask/technologies/campaign/fcm/ASKFCMService.kt:33-35 | the service works on the given context and its data store |
| Messaging.ASKFCMService.OnMessageReceived | campaign/src/main/java/com/ask/technologies/campaign/fcm/ASKFCMService.kt:44-50 | the calls appended are exactly the message's specification: the received-slot analytics, then the processing only when the data map is non-empty |
| Messaging.ASKFCMService.ProcessMessage | campaign/src/main/java/com/ask/technologies/campaign/fcm/ASKFCMService.kt:73-87 | the calls appended are nothing for a rejected payload, and one notification send for an accepted one |
| Messaging.ASKFCMService.SendNotification | campaign/src/main/java/com/ask/technologies/campaign/fcm/ASKFCMService.kt:98-139 | the calls appended are the promotion-slot analytics, then the post under the counter's first value with the routed intent, then the image requests |
| Messaging.ASKFCMService.LoadImagesIntoViews | campaign/src/main/java/com/ask/technologies/campaign/fcm/ASKFCMService.kt:189-205 | the calls appended are the icon load, then the feature-image load when the image is non-empty |
| Messaging.ASKFCMService.PrintAnalytics | campaign/src/main/java/com/ask/technologies/campaign/fcm/ASKFCMService.kt:207-215 | the calls appended are one event for a non-null name when the stored flag is on, and nothing otherwise |
| Subscription.AnalyticsSettingsByKey | campaign/src/main/java/com/ask/technologies/campaign/abstraction/ASKFCMBuilderImp.kt:44-64 | key by key, the store after addAnalytics holds: the flag for the flag key; the bundle's value for an event slot when analytics is on and the bundle has that value; the old entry for every other key |
| Subscription.AnalyticsFlagAlwaysWritten | campaign/src/main/java/com/ask/technologies/campaign/abstraction/ASKFCMBuilderImp.kt:50-52 | the flag is always written with the configured value; with analytics off or no bundle, nothing else changes |
| Subscription.AnalyticsSettingsKeys | campaign/src/main/java/com/ask/technologies/campaign/abstraction/ASKFCMBuilderImp.kt:45-62 | the keys afterwards are the old keys, plus the flag, plus exactly the event slots the bundle fills when analytics is on |
| Subscription.AnalyticsSettingsIdempotent | campaign/src/main/java/com/ask/technologies/campaign/abstraction/ASKFCMBuilderImp.kt:44-64 | running addAnalytics twice leaves the store as running it once |
| Subscription.ChannelGuardIdempotent | campaign/src/main/java/com/ask/technologies/campaign/abstraction/ASKFCMBuilderImp.kt:121-129 | the guard creates at most one channel, and nothing once the id exists, so repeated calls leave the channel set unchanged |
| Subscription.SetupOrder | campaign/src/main/java/com/ask/technologies/campaign/abstraction/ASKFCMBuilderImp.kt:73-80 | setup initialises first and subscribes to the topic last; it creates the channel in between only when missing; it logs and posts nothing |
| Subscription.ASKFCMBuilderImp.constructor | campaign/src/main/java/com/ask/technologies/campaign/abstraction/ASKFCMBuilderImp.kt:25-30 | the manager holds the given context, topic, analytics flag and bundle |
| Subscription.ASKFCMBuilderImp.AddAnalytics | campaign/src/main/java/com/ask/technologies/campaign/abstraction/ASKFCMBuilderImp.kt:44-64 | the store afterwards is the analytics settings applied to the old store |
| Subscription.ASKFCMBuilderImp.SetupFCMService | campaign/src/main/java/com/ask/technologies/campaign/abstraction/ASKFCMBuilderImp.kt:73-80 | the calls appended are init, the guarded channel creation and the topic subscription, in that order; the channel exists afterwards; the preference store is unchanged |
| Subscription.ASKFCMBuilderImp.RemoveTopic | campaign/src/main/java/com/ask/technologies/campaign/abstraction/ASKFCMBuilderImp.kt:87-89 | nothing in the manager, the context or the store changes |
| Subscription.ASKFCMBuilderImp.InitializeFirebase | campaign/src/main/java/com/ask/technologies/campaign/abstraction/ASKFCMBuilderImp.kt:98-104 | one app initialisation is appended |
| Subscription.ASKFCMBuilderImp.CreateNotificationChannel | campaign/src/main/java/com/ask/technologies/campaign/abstraction/ASKFCMBuilderImp.kt:114-131 | the channel exists afterwards, and one creation is appended only when it did not exist before |
| Config.Builder.constructor | campaign/src/main/java/com/ask/technologies/campaign/builder/ASKFCM.kt:31-35 | a new builder has no context, topic "", analytics off and no bundle |
| Config.Builder.SetContext | campaign/src/main/java/com/ask/technologies/campaign/builder/ASKFCM.kt:44-46 | sets the context, returns the same builder, and leaves the other fields unchanged |
| Config.Builder.SetTopic | campaign/src/main/java/com/ask/technologies/campaign/builder/ASKFCM.kt:54-56 | sets the topic, returns the same builder, and leaves the other fields unchanged |
| Config.Builder.EnableAnalytics | campaign/src/main/java/com/ask/technologies/campaign/builder/ASKFCM.kt:64-66 | sets the analytics flag, returns the same builder, and leaves the other fields unchanged |
| Config.Builder.AnalyticsBundle | campaign/src/main/java/com/ask/technologies/campaign/builder/ASKFCM.kt:75-77 | sets the bundle, returns the same builder, and leaves the other fields unchanged |
| Config.Builder.Build | campaign/src/main/java/com/ask/technologies/campaign/builder/ASKFCM.kt:86-99 | without a context it fails with the context error, which takes precedence; with analytics on and no bundle it fails with the bundle error; it succeeds iff neither holds, and then carries the builder's current fields |
| Config.StartService | campaign/src/main/java/com/ask/technologies/campaign/builder/ASKFCM.kt:101-106 | a new manager receives the context, topic, flag and bundle unchanged |
| Config.BuildWithOnlyContext | campaign/src/main/java/com/ask/technologies/campaign/builder/ASKFCM.kt:86-99 | with only a context set, the build succeeds with the defaults: topic "", analytics off, no bundle |
| Config.BuildWithoutContextOrBundle | campaign/src/main/java/com/ask/technologies/campaign/builder/ASKFCM.kt:87-92 | with analytics on and neither a context nor a bundle, the context error is the one reported |
| Config.BuildWithRepeatedSetters | campaign/src/main/java/com/ask/technologies/campaign/builder/ASKFCM.kt:44-77 | when a setter is called twice, the last call wins, and the other setters' values survive |

## Left out

- Float preferences (`saveFloat`/`getFloat`) are not modelled, to stay clear of floating point.
- A value read with a getter of another type than the one it was saved with reads as the default in the model. The DataStore library would raise a class-cast error instead. That library code is not part of this model.
- Firebase initialisation, topic subscription, `FirebaseAnalytics.logEvent`, `NotificationManager.notify` and Picasso loads are entries in the effect trace. Their failures and their internals are not modelled. The exception that `initializeFirebase` catches is therefore not modelled either.
- Image load failures and the single `try` around both loads are not modelled. The trace records both requests as made.
- `RemoteViews`, `NotificationCompat.Builder`, the small icon, auto-cancel and the `PendingIntent` flags are not modelled. A notification keeps its id, title, body and tap intent. The notification channel id used when posting is not modelled either.
- `Handler(mainLooper).post` is treated as running the notification send at once. `runBlocking` and the coroutine and DataStore internals are treated as atomic reads and writes of the preference map. There is no concurrency.
- The SDK version check in `createNotificationChannel` is not modelled: the model assumes API level 26 or above. The channel importance is not modelled.
- Messaging.CreatePlayStoreIntent: whether the `ActivityNotFoundException` branch can be reached depends on the `Intent` constructor, which is not part of this model. It becomes the platform flag `activityNotFound`, and both URIs are string functions.
- `onNewToken` only logs the token, so it is not modelled.
- An analytics bundle is reduced to its string entries; other kinds of entries read as absent.
- FCMHelper.kt is represented only by its four key constants. ASKFCMBuilder.kt, which declares the abstract members, is not part of this model. MainActivity.kt, the demo wiring, is not part of this model either.
