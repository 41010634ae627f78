/**
 * The part of the Android platform and of the vendor SDKs that the library talks to, reduced
 * to observable state: the application's preference store, the installed packages as the
 * package manager reports them, the set of notification channels, and one ordered trace of
 * the calls made into Firebase, the notification manager and the image loader.
 */
module Platform {
  import opened Wrappers
  import DataStore

  /** An intent: a VIEW of a URI, or the launch intent the package manager hands out for an app. */
  datatype Intent =
    | ActionView(uri: string)
    | LaunchIntent(packageName: string, activity: string)

  /** What the package manager knows of one installed package. */
  datatype AppInfo = AppInfo(enabled: bool, launchIntent: Option<Intent>)

  /** A posted notification: its id, the two text fields and the intent a tap starts. */
  datatype Notification = Notification(id: int, title: string, body: string, contentIntent: Intent)

  /** The two image views of the custom notification layout. */
  datatype ImageView = AppIconView | FeatureGraphicView

  /** One call into a platform or vendor service. */
  datatype Effect =
    | InitializeApp
    | CreateChannel(channelId: string, channelName: string)
    | SubscribeToTopic(topic: string)
    | LogEvent(name: string)
    | Notify(notification: Notification)
    | LoadImage(url: string, view: ImageView, notificationId: int)

  /**
   * The application context and everything reachable from it. The preference file "ask_fcm" is
   * one store per process, shared by every context of the application: the activity context the
   * builder writes the analytics settings through and the service context the router reads them
   * through both reach it. One `Context` stands for all of them.
   */
  class Context {
    /** The process-wide preference store named "ask_fcm". */
    const dataStore: DataStore.DataStoreHelper
    /** Installed packages, keyed by package name. */
    var packages: map<string, AppInfo>
    /** Whether building a VIEW intent for a market URI throws ActivityNotFoundException. */
    const activityNotFound: bool
    /** The string resources naming the default notification channel. */
    const channelId: string
    const channelName: string
    /** Ids of the notification channels that exist. */
    var channels: set<string>
    /** Every platform call made so far, oldest first. */
    var trace: seq<Effect>

    constructor (store: DataStore.DataStoreHelper, packages: map<string, AppInfo>, activityNotFound: bool,
                 channelId: string, channelName: string)
      ensures dataStore == store && this.packages == packages && this.activityNotFound == activityNotFound
      ensures this.channelId == channelId && this.channelName == channelName
      ensures channels == {} && trace == []
    {
      dataStore := store;
      this.packages := packages;
      this.activityNotFound := activityNotFound;
      this.channelId := channelId;
      this.channelName := channelName;
      channels := {};
      trace := [];
    }

    /** Records a call that has no effect on the modelled state besides the trace. */
    method Emit(e: Effect)
      modifies this`trace
      ensures trace == old(trace) + [e]
    {
      trace := trace + [e];
    }

    /** `NotificationManager.getNotificationChannel(id) != null` */
    method HasNotificationChannel(id: string) returns (found: bool)
      ensures found <==> id in channels
    {
      found := id in channels;
    }

    /** `NotificationManager.createNotificationChannel` */
    method CreateNotificationChannel(id: string, name: string)
      modifies this`channels, this`trace
      ensures channels == old(channels) + {id}
      ensures trace == old(trace) + [CreateChannel(id, name)]
    {
      channels := channels + {id};
      trace := trace + [CreateChannel(id, name)];
    }
  }

  /** The notifications posted in trace `t`, oldest first. */
  function Notices(t: seq<Effect>): seq<Notification>
  {
    if t == [] then []
    else Notices(t[..|t| - 1]) + (if t[|t| - 1].Notify? then [t[|t| - 1].notification] else [])
  }

  /** The analytics events logged in trace `t`, oldest first. */
  function Events(t: seq<Effect>): seq<string>
  {
    if t == [] then []
    else Events(t[..|t| - 1]) + (if t[|t| - 1].LogEvent? then [t[|t| - 1].name] else [])
  }

  /**
   * The notification manager's table by id after trace `t` (dismissals, auto-cancel on tap and
   * posting to a missing channel are not modelled): posting with an id already in the table
   * replaces the notification held under it.
   */
  function Displayed(t: seq<Effect>): map<int, Notification>
  {
    if t == [] then map[]
    else
      var d := Displayed(t[..|t| - 1]);
      if t[|t| - 1].Notify? then d[t[|t| - 1].notification.id := t[|t| - 1].notification] else d
  }

  lemma {:induction false} NoticesAppend(a: seq<Effect>, b: seq<Effect>)
    ensures Notices(a + b) == Notices(a) + Notices(b)
    decreases |b|
  {
    if b == [] {
      assert a + b == a;
    } else {
      var b' := b[..|b| - 1];
      assert (a + b)[..|a + b| - 1] == a + b';
      NoticesAppend(a, b');
    }
  }

  lemma {:induction false} EventsAppend(a: seq<Effect>, b: seq<Effect>)
    ensures Events(a + b) == Events(a) + Events(b)
    decreases |b|
  {
    if b == [] {
      assert a + b == a;
    } else {
      var b' := b[..|b| - 1];
      assert (a + b)[..|a + b| - 1] == a + b';
      EventsAppend(a, b');
    }
  }

  /** The two logs of a trace made of a prefix, one call and a suffix. */
  lemma SplitAround(a: seq<Effect>, e: Effect, b: seq<Effect>)
    ensures Notices(a + [e] + b) == Notices(a) + Notices([e]) + Notices(b)
    ensures Events(a + [e] + b) == Events(a) + Events([e]) + Events(b)
  {
    NoticesAppend(a, [e]);
    NoticesAppend(a + [e], b);
    EventsAppend(a, [e]);
    EventsAppend(a + [e], b);
  }

  /** Calls appended in two steps are the calls appended at once. */
  lemma AppendInSteps(t: seq<Effect>, a: seq<Effect>, b: seq<Effect>)
    ensures t + a + b == t + (a + b)
  {
  }

  /** The two logs of a single call. */
  lemma OneEffect(e: Effect)
    ensures Notices([e]) == if e.Notify? then [e.notification] else []
    ensures Events([e]) == if e.LogEvent? then [e.name] else []
  {
    assert [e][..0] == [];
  }

  /** A trace that neither posts nor logs contributes nothing to either log. */
  lemma {:induction false} NeitherPostsNorLogs(t: seq<Effect>)
    requires forall e :: e in t ==> !e.Notify? && !e.LogEvent?
    ensures Notices(t) == [] && Events(t) == []
    decreases |t|
  {
    if t != [] {
      assert t[|t| - 1] in t;
      assert forall e :: e in t[..|t| - 1] ==> e in t;
      NeitherPostsNorLogs(t[..|t| - 1]);
    }
  }

  /**
   * When every notification in a trace is posted under the same id, the notification manager's
   * table holds at most one notification afterwards, and it is the last one posted.
   */
  lemma {:induction false} DisplayedUnderOneId(t: seq<Effect>, id: int)
    requires forall i :: 0 <= i < |Notices(t)| ==> Notices(t)[i].id == id
    ensures Notices(t) == [] ==> Displayed(t) == map[]
    ensures Notices(t) != [] ==> Displayed(t) == map[id := Notices(t)[|Notices(t)| - 1]]
    ensures |Displayed(t).Keys| <= 1
    decreases |t|
  {
    if t != [] {
      var t' := t[..|t| - 1];
      assert Notices(t) == Notices(t') + (if t[|t| - 1].Notify? then [t[|t| - 1].notification] else []);
      assert forall i :: 0 <= i < |Notices(t')| ==> Notices(t')[i] == Notices(t)[i];
      DisplayedUnderOneId(t', id);
    }
    if Notices(t) != [] {
      var shown := map[id := Notices(t)[|Notices(t)| - 1]];
      assert shown.Keys == {id};
    }
  }
}
