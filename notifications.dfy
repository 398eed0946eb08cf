/** The client's notification list (`NotificationCenter.tsx`): marking read, removing, the
    capped prepend of a polled notification, the status and category filters, the unread
    badge and the relative timestamps; and the `useNotifications` hook's list. Polling's
    coin toss, the clock and the generated ids are parameters. */
module Notifications {
  import opened Values

  datatype Priority = Low | Medium | High

  /** A notification; `kind` is its `type` (success, warning, error or info). The free-form
      metadata is not modelled. */
  datatype Notification = Notification(id: string, title: string, message: string, kind: string,
                                       timestamp: string, read: bool, actionable: bool, category: string,
                                       priority: Priority)

  /** `xs.filter(p)`: the elements satisfying `p`, in their order. */
  function Filter(xs: seq<Notification>, p: Notification -> bool): (r: seq<Notification>)
    ensures |r| <= |xs|
  {
    if xs == [] then []
    else
      var init := xs[..|xs| - 1];
      assert xs == init + [xs[|xs| - 1]];
      Filter(init, p) + (if p(xs[|xs| - 1]) then [xs[|xs| - 1]] else [])
  }

  /** The filter keeps exactly the elements that pass it. */
  lemma {:induction false} FilterMembers(xs: seq<Notification>, p: Notification -> bool)
    ensures forall x :: x in Filter(xs, p) <==> x in xs && p(x)
  {
    if xs != [] {
      var init := xs[..|xs| - 1];
      FilterMembers(init, p);
      assert xs == init + [xs[|xs| - 1]];
    }
  }

  /** Filtering a concatenation filters each part: the kept elements stay in order. */
  lemma {:induction false} FilterAppend(a: seq<Notification>, b: seq<Notification>, p: Notification -> bool)
    ensures Filter(a + b, p) == Filter(a, p) + Filter(b, p)
  {
    if b != [] {
      var init, last := b[..|b| - 1], b[|b| - 1];
      assert (a + b)[..|a + b| - 1] == a + init;
      assert (a + b)[|a + b| - 1] == last;
      FilterAppend(a, init, p);
      var tail := if p(last) then [last] else [];
      assert Filter(a + b, p) == Filter(a, p) + Filter(init, p) + tail;
      assert Filter(b, p) == Filter(init, p) + tail;
    } else {
      assert a + b == a;
    }
  }

  /** Filtering by `p` and then by `q` is filtering once by both. */
  lemma {:induction false} FilterTwice(xs: seq<Notification>, p: Notification -> bool, q: Notification -> bool,
                                       both: Notification -> bool)
    requires forall x :: both(x) == (p(x) && q(x))
    ensures Filter(Filter(xs, p), q) == Filter(xs, both)
  {
    if xs != [] {
      var init, last := xs[..|xs| - 1], xs[|xs| - 1];
      FilterTwice(init, p, q, both);
      FilterAppend(Filter(init, p), if p(last) then [last] else [], q);
    }
  }

  /** A filter every element passes keeps the whole list. */
  lemma {:induction false} FilterKeepsAll(xs: seq<Notification>, p: Notification -> bool)
    requires forall i :: 0 <= i < |xs| ==> p(xs[i])
    ensures Filter(xs, p) == xs
  {
    if xs != [] {
      FilterKeepsAll(xs[..|xs| - 1], p);
    }
  }

  // ---------------------------------------------------------------- list transforms

  /** `markAsRead(id)`. */
  function MarkRead(ns: seq<Notification>, id: string): seq<Notification> {
    seq(|ns|, i requires 0 <= i < |ns| => if ns[i].id == id then ns[i].(read := true) else ns[i])
  }

  /** `markAllAsRead()`. */
  function AllRead(ns: seq<Notification>): seq<Notification> {
    seq(|ns|, i requires 0 <= i < |ns| => ns[i].(read := true))
  }

  /** `removeNotification(id)`. */
  function Without(ns: seq<Notification>, id: string): seq<Notification> {
    Filter(ns, OtherId(id))
  }

  /** `n => n.id !== id`. */
  function OtherId(id: string): Notification -> bool {
    (n: Notification) => n.id != id
  }

  predicate Unread(n: Notification) {
    !n.read
  }

  /** `xs.slice(0, end)`: a negative end counts from the back. */
  function SliceTo<T>(xs: seq<T>, end: int): (r: seq<T>)
    ensures r <= xs
  {
    var e := if end < 0 then (if |xs| + end < 0 then 0 else |xs| + end) else (if end < |xs| then end else |xs|);
    xs[..e]
  }

  /** The list after a poll brings `n`. */
  function Polled(ns: seq<Notification>, n: Notification, maxNotifications: int): seq<Notification> {
    [n] + SliceTo(ns, maxNotifications - 1)
  }

  /** The list after `addNotification`. */
  function Added(ns: seq<Notification>, n: Notification): seq<Notification> {
    [n] + ns
  }

  /** `notifications.filter(n => !n.read).length`. */
  function UnreadCount(ns: seq<Notification>): nat {
    |Filter(ns, Unread)|
  }

  /** The status filter: unread, actionable or high-priority; anything else keeps all. */
  predicate StatusKeeps(filter: string, n: Notification) {
    if filter == "unread" then !n.read
    else if filter == "actionable" then n.actionable
    else if filter == "high-priority" then n.priority == High
    else true
  }

  function ByStatus(filter: string): Notification -> bool {
    (n: Notification) => StatusKeeps(filter, n)
  }

  function InCategory(category: string): Notification -> bool {
    (n: Notification) => n.category == category
  }

  /** `getFilteredNotifications`: the status filter unless it is "all", then the category
      filter unless it is "all". */
  function Filtered(ns: seq<Notification>, filter: string, category: string): seq<Notification> {
    var byStatus := if filter != "all" then Filter(ns, ByStatus(filter)) else ns;
    if category != "all" then Filter(byStatus, InCategory(category)) else byStatus
  }

  /** Both filters as one condition. */
  function Shown(filter: string, category: string): Notification -> bool {
    (n: Notification) => StatusKeeps(filter, n) && (category == "all" || n.category == category)
  }

  /** The filtered list is the notifications that pass both filters, in their original
      order. */
  lemma FilteredIsOneFilter(ns: seq<Notification>, filter: string, category: string)
    ensures Filtered(ns, filter, category) == Filter(ns, Shown(filter, category))
  {
    var everything := (n: Notification) => true;
    if filter != "all" && category != "all" {
      FilterTwice(ns, ByStatus(filter), InCategory(category), Shown(filter, category));
    } else if filter != "all" {
      FilterTwice(ns, ByStatus(filter), everything, Shown(filter, category));
      FilterKeepsAll(Filter(ns, ByStatus(filter)), everything);
    } else if category != "all" {
      FilterTwice(ns, everything, InCategory(category), Shown(filter, category));
      FilterKeepsAll(ns, everything);
    } else {
      FilterKeepsAll(ns, Shown(filter, category));
    }
  }

  /** Marking one id read keeps the list's length, order and ids, makes every notification
      with that id read, and changes nothing else. */
  lemma MarkAsReadEffect(ns: seq<Notification>, id: string)
    ensures var r := MarkRead(ns, id);
      |r| == |ns| &&
      forall i :: 0 <= i < |ns| ==>
        r[i].id == ns[i].id && r[i].read == (ns[i].read || ns[i].id == id) &&
        r[i].(read := ns[i].read) == ns[i]
  {
  }

  /** After marking an id read, the unread count is that of the list without that id. */
  lemma {:induction false} MarkAsReadUnread(ns: seq<Notification>, id: string)
    ensures UnreadCount(MarkRead(ns, id)) == UnreadCount(Without(ns, id))
  {
    if ns != [] {
      var init, last := ns[..|ns| - 1], ns[|ns| - 1];
      var step := if last.id != id && !last.read then 1 else 0;
      assert UnreadCount(MarkRead(ns, id)) == UnreadCount(MarkRead(init, id)) + step by {
        var r := MarkRead(ns, id);
        assert r[..|r| - 1] == MarkRead(init, id);
      }
      assert UnreadCount(Without(ns, id)) == UnreadCount(Without(init, id)) + step by {
        var kept := if OtherId(id)(last) then [last] else [];
        assert Without(ns, id) == Without(init, id) + kept;
        FilterAppend(Without(init, id), kept, Unread);
        if kept != [] {
          assert kept == [] + [last];
        }
      }
      MarkAsReadUnread(init, id);
    }
  }

  /** After marking all read the unread count is 0; nothing but the read flags changes. */
  lemma {:induction false} MarkAllAsReadEffect(ns: seq<Notification>)
    ensures var r := AllRead(ns);
      |r| == |ns| && UnreadCount(r) == 0 &&
      forall i :: 0 <= i < |ns| ==> r[i].read && r[i].(read := ns[i].read) == ns[i]
  {
    if ns != [] {
      MarkAllAsReadEffect(ns[..|ns| - 1]);
      assert AllRead(ns)[..|ns| - 1] == AllRead(ns[..|ns| - 1]);
    }
  }

  /** Removing an id keeps exactly the notifications with another id, in order, and drops
      every one with that id; marking them read first makes no difference. */
  lemma RemoveEffect(ns: seq<Notification>, id: string, a: seq<Notification>, b: seq<Notification>)
    ensures forall n :: n in Without(ns, id) <==> n in ns && n.id != id
    ensures (forall i :: 0 <= i < |ns| ==> ns[i].id != id) ==> Without(ns, id) == ns
    ensures Without(a + b, id) == Without(a, id) + Without(b, id)
    ensures Without(MarkRead(ns, id), id) == Without(ns, id)
  {
    FilterAppend(a, b, OtherId(id));
    FilterMembers(ns, OtherId(id));
    if forall i :: 0 <= i < |ns| ==> ns[i].id != id {
      FilterKeepsAll(ns, OtherId(id));
    }
    RemoveAfterMark(ns, id);
  }

  lemma {:induction false} RemoveAfterMark(ns: seq<Notification>, id: string)
    ensures Without(MarkRead(ns, id), id) == Without(ns, id)
  {
    if ns != [] {
      var init := ns[..|ns| - 1];
      RemoveAfterMark(init, id);
      assert MarkRead(ns, id)[..|ns| - 1] == MarkRead(init, id);
    }
  }

  /** A polled notification goes first, followed by the first older ones in order. With a
      cap of at least one, the list keeps at most `maxNotifications` entries and loses none
      while it is shorter; a cap below one counts the end from the back, as slicing does. */
  lemma PollEffect(ns: seq<Notification>, n: Notification, maxNotifications: int)
    ensures var r := Polled(ns, n, maxNotifications);
      r[0] == n && r[1..] <= ns &&
      (maxNotifications >= 1 ==>
         |r| == 1 + (if |ns| < maxNotifications - 1 then |ns| else maxNotifications - 1) &&
         |r| <= maxNotifications &&
         (|ns| < maxNotifications ==> r[1..] == ns)) &&
      (maxNotifications < 1 ==>
         |r| == 1 + (if |ns| + maxNotifications - 1 < 0 then 0 else |ns| + maxNotifications - 1))
  {
    var r := Polled(ns, n, maxNotifications);
    assert r[1..] == SliceTo(ns, maxNotifications - 1);
  }

  /** An added notification goes first and every older one is kept, in order; an unread one
      raises the unread count by one. */
  lemma AddEffect(ns: seq<Notification>, n: Notification)
    ensures var r := Added(ns, n);
      r[0] == n && r[1..] == ns &&
      UnreadCount(r) == UnreadCount(ns) + (if n.read then 0 else 1)
  {
    FilterAppend([n], ns, Unread);
    assert Filter([n], Unread) == Filter([], Unread) + (if Unread(n) then [n] else []);
  }

  /** The unread count never exceeds the list's length, and is 0 exactly when every
      notification is read. */
  lemma {:induction false} UnreadCountBounds(ns: seq<Notification>)
    ensures UnreadCount(ns) <= |ns|
    ensures UnreadCount(ns) == 0 <==> forall i :: 0 <= i < |ns| ==> ns[i].read
  {
    FilterMembers(ns, Unread);
    if UnreadCount(ns) == 0 {
      forall i | 0 <= i < |ns| ensures ns[i].read {
        assert ns[i] in ns;
      }
    } else {
      var n := Filter(ns, Unread)[0];
      assert n in Filter(ns, Unread);
      assert n in ns && !n.read;
    }
  }

  /** The badge on the bell: none when nothing is unread, "99+" above 99, else the count. */
  function Badge(unread: nat): (b: Option<string>)
    ensures b.None? <==> unread == 0
    ensures unread > 99 ==> b == Some("99+")
    ensures 0 < unread <= 99 ==>
      b.Some? && 1 <= |b.value| <= 2 && (forall i :: 0 <= i < |b.value| ==> IsDigit(b.value[i])) &&
      DigitsValue(b.value) == unread
  {
    if unread == 0 then None
    else if unread > 99 then Some("99+")
    else
      DecimalTextValue(unread);
      Some(DecimalText(unread))
  }

  /** Decimal text reads back as its number, and has two digits at most below 100. */
  lemma {:induction false} DecimalTextValue(n: nat)
    ensures DigitsValue(DecimalText(n)) == n
    ensures n < 100 ==> |DecimalText(n)| <= 2
  {
    if n >= 10 {
      DecimalTextValue(n / 10);
      var t := DecimalText(n);
      assert t[..|t| - 1] == DecimalText(n / 10);
    }
  }

  // ---------------------------------------------------------------- timestamps

  /** How long ago a notification arrived, as `formatTimestamp` words it; `OnDate` is the
      locale date it falls back to from a week on. */
  datatype Age = JustNow | MinutesAgo(minutes: int) | HoursAgo(hours: int) | DaysAgo(days: int) | OnDate

  /** `formatTimestamp`, given the milliseconds elapsed since the notification's time. The
      divisions are floored, as `Math.floor` does. */
  function FormatTimestamp(diffMs: int): Age {
    var diffMins := diffMs / 60000;
    var diffHours := diffMs / 3600000;
    var diffDays := diffMs / 86400000;
    if diffMins < 1 then JustNow
    else if diffMins < 60 then MinutesAgo(diffMins)
    else if diffHours < 24 then HoursAgo(diffHours)
    else if diffDays < 7 then DaysAgo(diffDays)
    else OnDate
  }

  /** The text shown for an age. */
  function AgeText(age: Age, localeDate: string): string {
    match age
    case JustNow => "Just now"
    case MinutesAgo(m) => IntText(m) + "m ago"
    case HoursAgo(h) => IntText(h) + "h ago"
    case DaysAgo(d) => IntText(d) + "d ago"
    case OnDate => localeDate
  }

  /** Under a minute (or in the future) is "just now"; then whole minutes up to 59, whole
      hours up to 23 and whole days up to 6, each the largest count that has fully elapsed;
      from a week on, the date. */
  lemma AgeBuckets(diffMs: int)
    ensures FormatTimestamp(diffMs) == JustNow <==> diffMs < 60000
    ensures FormatTimestamp(diffMs).MinutesAgo? ==>
      var m := FormatTimestamp(diffMs).minutes; 1 <= m < 60 && m * 60000 <= diffMs < (m + 1) * 60000
    ensures FormatTimestamp(diffMs).HoursAgo? ==>
      var h := FormatTimestamp(diffMs).hours; 1 <= h < 24 && h * 3600000 <= diffMs < (h + 1) * 3600000
    ensures FormatTimestamp(diffMs).DaysAgo? ==>
      var d := FormatTimestamp(diffMs).days; 1 <= d < 7 && d * 86400000 <= diffMs < (d + 1) * 86400000
    ensures FormatTimestamp(diffMs) == OnDate <==> diffMs >= 7 * 86400000
  {
  }

  // ---------------------------------------------------------------- components

  /** The `NotificationCenter` component's state: the list and the two filter selections. */
  class NotificationCenter {
    var notifications: seq<Notification>
    var filter: string
    var selectedCategory: string
    const maxNotifications: int

    constructor(maxNotifications: int)
      ensures notifications == [] && filter == "all" && selectedCategory == "all"
      ensures this.maxNotifications == maxNotifications
    {
      notifications := [];
      filter := "all";
      selectedCategory := "all";
      this.maxNotifications := maxNotifications;
    }

    /** What the panel lists. */
    function Visible(): seq<Notification>
      reads this
    {
      Filtered(notifications, filter, selectedCategory)
    }

    /** `loadNotifications`: the list becomes the loaded one. */
    method LoadNotifications(loaded: seq<Notification>)
      modifies this
      ensures notifications == loaded && filter == old(filter) && selectedCategory == old(selectedCategory)
    {
      notifications := loaded;
    }

    /** `pollNotifications`: when the draw fires, the new notification goes first and the
        list is capped; otherwise nothing changes. */
    method PollNotifications(fires: bool, n: Notification)
      modifies this
      ensures notifications == (if fires then Polled(old(notifications), n, maxNotifications) else old(notifications))
      ensures filter == old(filter) && selectedCategory == old(selectedCategory)
      ensures fires && maxNotifications >= 1 ==> |notifications| <= maxNotifications
    {
      if fires {
        PollEffect(notifications, n, maxNotifications);
        notifications := [n] + SliceTo(notifications, maxNotifications - 1);
      }
    }

    method MarkAsRead(id: string)
      modifies this
      ensures notifications == MarkRead(old(notifications), id)
      ensures filter == old(filter) && selectedCategory == old(selectedCategory)
    {
      notifications := MarkRead(notifications, id);
    }

    method MarkAllAsRead()
      modifies this
      ensures notifications == AllRead(old(notifications)) && UnreadCount(notifications) == 0
      ensures filter == old(filter) && selectedCategory == old(selectedCategory)
    {
      MarkAllAsReadEffect(notifications);
      notifications := AllRead(notifications);
    }

    method RemoveNotification(id: string)
      modifies this
      ensures notifications == Without(old(notifications), id)
      ensures forall n :: n in notifications ==> n.id != id
      ensures filter == old(filter) && selectedCategory == old(selectedCategory)
    {
      RemoveEffect(notifications, id, [], []);
      notifications := Without(notifications, id);
    }
  }

  /** The `useNotifications` hook's list. */
  class NotificationFeed {
    var notifications: seq<Notification>

    constructor()
      ensures notifications == []
    {
      notifications := [];
    }

    /** `addNotification`: the notification, with a fresh id and timestamp, goes first. */
    method AddNotification(n: Notification, id: string, timestamp: string)
      modifies this
      ensures notifications == Added(old(notifications), n.(id := id, timestamp := timestamp))
    {
      notifications := [n.(id := id, timestamp := timestamp)] + notifications;
    }

    method RemoveNotification(id: string)
      modifies this
      ensures notifications == Without(old(notifications), id)
    {
      RemoveEffect(notifications, id, [], []);
      notifications := Without(notifications, id);
    }
  }
}
