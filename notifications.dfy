/**
 * The notification centre (app/profile/notification.tsx): a list of
 * notifications split into a "recent" and an "archived" tab, where pressing a
 * notification marks it read.
 */
module Notifications {
  import opened Lists

  /** `kind` is the notification's `type`; at run time it can be any string. */
  datatype Notification = Notification(
    id: int,
    kind: string,
    title: string,
    message: string,
    time: string,
    isRead: bool,
    isArchived: bool)

  datatype Tab = Recent | Archived

  datatype Icon = Icon(name: string, color: string)

  const KnownKinds: set<string> := {"mandi", "disease", "weather", "update"}

  const DefaultIcon := Icon("notifications-outline", "#888")

  /** `getIconDetails` */
  function IconFor(kind: string): (icon: Icon)
    ensures icon == DefaultIcon <==> kind !in KnownKinds
  {
    match kind
    case "mandi" => Icon("cash-outline", "#2e7d32")
    case "disease" => Icon("bug-outline", "#d32f2f")
    case "weather" => Icon("cloud-outline", "#ffc107")
    case "update" => Icon("information-circle-outline", "#1e88e5")
    case _ => DefaultIcon
  }

  /** The icon for each type: types are compared as written, without case folding. */
  lemma IconTable(kind: string)
    ensures kind == "mandi" ==> IconFor(kind) == Icon("cash-outline", "#2e7d32")
    ensures kind == "disease" ==> IconFor(kind) == Icon("bug-outline", "#d32f2f")
    ensures kind == "weather" ==> IconFor(kind) == Icon("cloud-outline", "#ffc107")
    ensures kind == "update" ==> IconFor(kind) == Icon("information-circle-outline", "#1e88e5")
    ensures kind !in KnownKinds ==> IconFor(kind) == Icon("notifications-outline", "#888")
  {
  }

  /** Each known type has an icon of its own. */
  lemma IconsTellKindsApart(a: string, b: string)
    requires a in KnownKinds && b in KnownKinds && a != b
    ensures IconFor(a).name != IconFor(b).name
  {
  }

  // ---------------------------------------------------------------- tabs

  predicate OnTab(n: Notification, tab: Tab)
  {
    if tab == Recent then !n.isArchived else n.isArchived
  }

  /** `filteredNotifications` for the active tab */
  function Visible(ns: seq<Notification>, tab: Tab): (shown: seq<Notification>)
    ensures |shown| <= |ns|
    ensures forall i :: 0 <= i < |shown| ==> OnTab(shown[i], tab)
  {
    Filter(ns, (n: Notification) => OnTab(n, tab))
  }

  /** The recent tab shows exactly the notifications not archived, the archived tab exactly the archived ones. */
  lemma VisibleMembership(ns: seq<Notification>, n: Notification)
    ensures n in Visible(ns, Recent) <==> n in ns && !n.isArchived
    ensures n in Visible(ns, Archived) <==> n in ns && n.isArchived
  {
  }

  /** Both tabs keep the list's order. */
  lemma VisibleKeepsOrder(ns: seq<Notification>, tab: Tab)
    ensures IsSubsequence(Visible(ns, tab), ns)
  {
    FilterIsSubsequence(ns, (n: Notification) => OnTab(n, tab));
  }

  /** Together the two tabs show every notification exactly once. */
  lemma TabsPartition(ns: seq<Notification>)
    ensures |Visible(ns, Recent)| + |Visible(ns, Archived)| == |ns|
    ensures multiset(Visible(ns, Recent)) + multiset(Visible(ns, Archived)) == multiset(ns)
  {
    FilterPartition(ns, (n: Notification) => OnTab(n, Recent), (n: Notification) => OnTab(n, Archived));
  }

  // ---------------------------------------------------------------- marking read

  function MarkIfId(n: Notification, id: int): Notification
  {
    if n.id == id then n.(isRead := true) else n
  }

  /** The list after pressing notification `id` (the state update in `handleNotificationPress`). */
  function MarkRead(ns: seq<Notification>, id: int): (r: seq<Notification>)
    ensures |r| == |ns|
    ensures forall i :: 0 <= i < |ns| && ns[i].id == id ==> r[i].isRead
    ensures forall i :: 0 <= i < |ns| && ns[i].id != id ==> r[i] == ns[i]
    ensures forall i :: 0 <= i < |ns| ==> r[i] == ns[i].(isRead := r[i].isRead)
  {
    Map(ns, (n: Notification) => MarkIfId(n, id))
  }

  /** Pressing the same notification twice is the same as pressing it once. */
  lemma MarkReadIdempotent(ns: seq<Notification>, id: int)
    ensures MarkRead(MarkRead(ns, id), id) == MarkRead(ns, id)
  {
  }

  /** Pressing an id no notification has changes nothing. */
  lemma MarkReadAbsentId(ns: seq<Notification>, id: int)
    requires forall i :: 0 <= i < |ns| ==> ns[i].id != id
    ensures MarkRead(ns, id) == ns
  {
  }

  /**
   * Pressing never moves a notification between tabs: each tab afterwards
   * shows what it showed before, with the pressed one marked read.
   */
  lemma MarkReadKeepsTabs(ns: seq<Notification>, id: int, tab: Tab)
    ensures Visible(MarkRead(ns, id), tab) == MarkRead(Visible(ns, tab), id)
  {
    FilterMapCommute(ns, (n: Notification) => MarkIfId(n, id), (n: Notification) => OnTab(n, tab));
  }

  // ---------------------------------------------------------------- the screen

  /** The text of each sample notification: title, message and time, in Hindi as shipped. */
  const Text1 := ["मंडी भाव अपडेट: गेहूँ",
    "आज आपके क्षेत्र में गेहूँ का अधिकतम मूल्य ₹2450/क्विंटल दर्ज किया गया है।", "2 घंटे पहले"]
  const Text2 := ["⚠️ भारी वर्षा की चेतावनी",
    "अगले 24 घंटों में भारी वर्षा का अनुमान है। अपनी फसल की सुरक्षा के लिए आवश्यक कदम उठाएँ।", "आज सुबह 8:00 बजे"]
  const Text3 := ["फसल रोग अलर्ट",
    "टमाटर की फसल में पत्ती धब्बा रोग के शुरुआती लक्षण देखे गए हैं। निवारण के लिए क्लिक करें।", "कल शाम 5:30 बजे"]
  const Text4 := ["ऐप अपडेट उपलब्ध", "नया खाद सिफारिश मॉडल लॉन्च हो गया है।", "3 दिन पहले"]
  const Text5 := ["आलू के दाम सामान्य", "आलू का औसत मूल्य ₹1800/क्विंटल पर स्थिर है।", "5 दिन पहले"]

  const DummyNotifications: seq<Notification> := [
    Notification(1, "mandi", Text1[0], Text1[1], Text1[2], false, false),
    Notification(2, "weather", Text2[0], Text2[1], Text2[2], false, false),
    Notification(3, "disease", Text3[0], Text3[1], Text3[2], true, false),
    Notification(4, "update", Text4[0], Text4[1], Text4[2], true, true),
    Notification(5, "mandi", Text5[0], Text5[1], Text5[2], true, true)
  ]

  /**
   * When the unarchived notifications all come before the archived ones, the
   * recent tab shows the leading run and the archived tab the rest.
   */
  lemma TabsSplitAt(ns: seq<Notification>, k: nat)
    requires k <= |ns|
    requires forall i :: 0 <= i < |ns| ==> (ns[i].isArchived <==> i >= k)
    ensures Visible(ns, Recent) == ns[..k]
    ensures Visible(ns, Archived) == ns[k..]
  {
    FilterKeepsPrefix(ns, k, (n: Notification) => OnTab(n, Recent));
    FilterKeepsSuffix(ns, k, (n: Notification) => OnTab(n, Archived));
  }

  /**
   * On opening, the recent tab shows the first three notifications and the
   * archived tab the last two.
   */
  lemma InitialTabs()
    ensures Visible(DummyNotifications, Recent) == DummyNotifications[..3]
    ensures Visible(DummyNotifications, Archived) == DummyNotifications[3..]
  {
    var d := DummyNotifications;
    assert !d[0].isArchived && !d[1].isArchived && !d[2].isArchived;
    assert d[3].isArchived && d[4].isArchived;
    TabsSplitAt(d, 3);
  }

  class NotificationScreen {
    var activeTab: Tab
    var notifications: seq<Notification>

    constructor ()
      ensures activeTab == Recent && notifications == DummyNotifications
    {
      activeTab, notifications := Recent, DummyNotifications;
    }

    /** The cards on screen. */
    function Shown(): seq<Notification>
      reads this
    {
      Visible(notifications, activeTab)
    }

    /** A tap on one of the two tab buttons. */
    method SelectTab(tab: Tab)
      modifies this`activeTab
      ensures activeTab == tab
    {
      activeTab := tab;
    }

    /** `handleNotificationPress` */
    method Press(id: int)
      modifies this`notifications
      ensures notifications == MarkRead(old(notifications), id)
    {
      notifications := MarkRead(notifications, id);
    }
  }
}
