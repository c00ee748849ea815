/**
 * The logic of the dashboard page's script (app.py, the embedded
 * JavaScript): the activity feed, a bounded list of items with the newest
 * first, and the uptime text.
 *
 * The DOM list `#activityFeed` is a sequence of items; its `textContent` is
 * the item's three texts on separate lines. `new Date().toLocaleTimeString()`
 * is the parameter `time`, and the elapsed milliseconds since the page loaded
 * are a parameter of the uptime text.
 */
module DashboardClient {
  import opened Text

  /** One feed entry: its icon, its title line and its detail line. */
  datatype FeedItem = FeedItem(icon: string, title: string, detail: string)

  /** An activity as `/api/activity` returns it. */
  datatype Activity = Activity(icon: string, title: string, details: string)

  /** The feed keeps at most this many items. */
  const FeedCapacity: nat := 20
  const AwaitingPhrase: string := "awaiting authentication"

  /** The item the page starts with. */
  const InitialItem: FeedItem :=
    FeedItem("\U{26A1}", "System " + AwaitingPhrase + "...", "Please complete Telegram verification")

  function TextContent(item: FeedItem): string {
    item.icon + "\n" + item.title + "\n" + item.detail
  }

  /** The "awaiting authentication" message that the first real item replaces. */
  predicate IsPlaceholder(item: FeedItem) {
    Contains(TextContent(item), AwaitingPhrase)
  }

  /** The item `addActivity(icon, title, details)` creates at local time `time`. */
  function MakeItem(icon: string, title: string, details: string, time: string): FeedItem {
    FeedItem(icon, title, details + " - " + time)
  }

  /** The feed without a leading placeholder. */
  function DropPlaceholder(items: seq<FeedItem>): (r: seq<FeedItem>)
    ensures |items| > 0 && IsPlaceholder(items[0]) ==> r == items[1..]
    ensures !(|items| > 0 && IsPlaceholder(items[0])) ==> r == items
  {
    if |items| > 0 && IsPlaceholder(items[0]) then items[1..] else items
  }

  /** The first 20 items: what remains after removing the last item while there are more than 20. */
  function Newest(items: seq<FeedItem>): (r: seq<FeedItem>)
    ensures |r| == if |items| <= FeedCapacity then |items| else FeedCapacity
    ensures r <= items
  {
    if |items| <= FeedCapacity then items else items[..FeedCapacity]
  }

  /** The feed after `addActivity` puts `item` in front. */
  function AfterAdd(items: seq<FeedItem>, item: FeedItem): (r: seq<FeedItem>)
    ensures 1 <= |r| <= FeedCapacity && r[0] == item
  {
    Newest([item] + DropPlaceholder(items))
  }

  /**
   * After `addActivity` the new item is first, the feed holds at most 20
   * items, and the rest is the old feed without its placeholder, cut at the
   * back: nothing is lost while there is room.
   */
  lemma AfterAddSpec(items: seq<FeedItem>, item: FeedItem)
    ensures var r := AfterAdd(items, item);
            && |r| == (if |DropPlaceholder(items)| < FeedCapacity then 1 + |DropPlaceholder(items)| else FeedCapacity)
            && r[0] == item
            && r[1..] <= DropPlaceholder(items)
            && (|items| > 0 && IsPlaceholder(items[0]) ==> r[1..] <= items[1..])
            && (|DropPlaceholder(items)| < FeedCapacity ==> r[1..] == DropPlaceholder(items))
            && (|items| > 0 && !IsPlaceholder(items[0]) ==> r[1..] <= items)
  {
    var d := DropPlaceholder(items);
    var r := AfterAdd(items, item);
    assert ([item] + d)[1..] == d;
    if |[item] + d| > FeedCapacity {
      assert r[1..] == d[..FeedCapacity - 1];
    }
  }

  /** What `updateActivityFeed` keeps of the feed: its first item, if any. */
  function Kept(items: seq<FeedItem>): (r: seq<FeedItem>)
    ensures items == [] ==> r == []
    ensures items != [] ==> r == [items[0]]
  {
    if |items| <= 1 then items else items[..1]
  }

  /** The feed after adding the activities of `acts` one after the other. */
  function AddAll(items: seq<FeedItem>, acts: seq<Activity>, time: string): (r: seq<FeedItem>)
    ensures acts == [] ==> r == items
    ensures acts != [] ==> 1 <= |r| <= FeedCapacity
  {
    if acts == [] then items
    else
      var a := acts[|acts| - 1];
      AfterAdd(AddAll(items, acts[..|acts| - 1], time), MakeItem(a.icon, a.title, a.details, time))
  }

  /** The items made for `acts`, the last activity first. */
  function ReversedItems(acts: seq<Activity>, time: string): (r: seq<FeedItem>)
    ensures |r| == |acts|
  {
    if acts == [] then []
    else
      var a := acts[|acts| - 1];
      [MakeItem(a.icon, a.title, a.details, time)] + ReversedItems(acts[..|acts| - 1], time)
  }

  lemma NewestOfNewest(item: FeedItem, s: seq<FeedItem>)
    ensures Newest([item] + Newest(s)) == Newest([item] + s)
  {
  }

  /**
   * `updateActivityFeed`: when no fetched activity reads as the placeholder,
   * the feed ends up as the fetched activities in reverse order followed by
   * the kept first item (dropped if it was the placeholder), cut to 20.
   */
  lemma {:induction false} AddAllReverses(kept: seq<FeedItem>, acts: seq<Activity>, time: string)
    requires acts != []
    requires forall a :: a in acts ==> !IsPlaceholder(MakeItem(a.icon, a.title, a.details, time))
    ensures AddAll(kept, acts, time) == Newest(ReversedItems(acts, time) + DropPlaceholder(kept))
  {
    var a := acts[|acts| - 1];
    var item := MakeItem(a.icon, a.title, a.details, time);
    var init := acts[..|acts| - 1];
    if init == [] {
      assert ReversedItems(acts, time) == [item];
    } else {
      assert forall c :: c in init ==> c in acts;
      AddAllReverses(kept, init, time);
      var b := init[|init| - 1];
      assert b in acts;
      AddAllStep(AddAll(kept, init, time), ReversedItems(init, time), DropPlaceholder(kept), item);
    }
  }

  /** One step of `AddAllReverses`: adding an item in front of a feed cut from real items `front` and `back`. */
  lemma AddAllStep(prev: seq<FeedItem>, front: seq<FeedItem>, back: seq<FeedItem>, item: FeedItem)
    requires front != [] && !IsPlaceholder(front[0])
    requires prev == Newest(front + back)
    ensures AfterAdd(prev, item) == Newest([item] + front + back)
  {
    var rest := front + back;
    assert prev[0] == rest[0];
    assert DropPlaceholder(prev) == prev;
    NewestOfNewest(item, rest);
    assert [item] + rest == [item] + front + back;
  }

  /** Adding one more activity is one more `addActivity` on the feed built so far. */
  lemma AddAllSnoc(items: seq<FeedItem>, acts: seq<Activity>, i: nat, time: string)
    requires i < |acts|
    ensures AddAll(items, acts[..i + 1], time)
            == AfterAdd(AddAll(items, acts[..i], time), MakeItem(acts[i].icon, acts[i].title, acts[i].details, time))
  {
    assert acts[..i + 1][..i] == acts[..i];
  }

  /** Whatever an item's title contains, its text content contains. */
  lemma TitleInTextContent(item: FeedItem, sub: string)
    requires Contains(item.title, sub)
    ensures Contains(TextContent(item), sub)
  {
    ContainsWithin(item.icon + "\n", item.title, "\n" + item.detail, sub);
    assert TextContent(item) == (item.icon + "\n") + item.title + ("\n" + item.detail);
  }

  /** The page's initial item reads as the "awaiting authentication" message. */
  lemma InitialIsPlaceholder()
    ensures IsPlaceholder(InitialItem)
  {
    ContainsMiddle("System ", AwaitingPhrase, "...");
    TitleInTextContent(InitialItem, AwaitingPhrase);
  }

  /** The first `addActivity` on a fresh page replaces the initial item by the new one. */
  lemma FirstAddReplacesInitial(item: FeedItem)
    ensures AfterAdd([InitialItem], item) == [item]
  {
    InitialIsPlaceholder();
    assert DropPlaceholder([InitialItem]) == [];
  }

  /** The feed list of the page. */
  class ActivityFeed {
    var items: seq<FeedItem>

    constructor ()
      ensures items == [InitialItem]
    {
      items := [InitialItem];
    }

    /** `addActivity`: drop a leading placeholder, put the new item in front, remove from the back beyond 20. */
    method AddActivity(icon: string, title: string, details: string, time: string)
      modifies this
      ensures items == AfterAdd(old(items), MakeItem(icon, title, details, time))
    {
      var item := MakeItem(icon, title, details, time);
      if |items| > 0 && IsPlaceholder(items[0]) {
        items := items[1..];
      }
      items := [item] + items;
      ghost var full := items;
      while |items| > FeedCapacity
        invariant items <= full
        invariant |items| >= FeedCapacity || items == full
        decreases |items|
      {
        items := items[..|items| - 1];
      }
    }

    /** `updateActivityFeed`: keep only the first item, then add each fetched activity in array order. */
    method UpdateActivityFeed(activities: seq<Activity>, time: string)
      modifies this
      ensures items == AddAll(Kept(old(items)), activities, time)
    {
      while |items| > 1
        invariant items <= old(items)
        invariant |items| >= 1 || items == old(items)
        decreases |items|
      {
        items := items[..|items| - 1];
      }
      ghost var kept := items;
      assert kept == Kept(old(items));
      var i := 0;
      while i < |activities|
        invariant 0 <= i <= |activities|
        invariant items == AddAll(kept, activities[..i], time)
      {
        var a := activities[i];
        AddAllSnoc(kept, activities, i, time);
        AddActivity(a.icon, a.title, a.details, time);
        i := i + 1;
      }
      assert activities[..|activities|] == activities;
    }
  }

  // ---------------------------------------------------------------- uptime

  const MsPerHour: nat := 3600000
  const MsPerMinute: nat := 60000

  /** The uptime text `HH:MM` for `elapsed` milliseconds; hours beyond 99 take more digits. */
  function UptimeText(elapsed: nat): (r: string)
    ensures |r| >= 5
    ensures elapsed < 100 * MsPerHour ==> |r| == 5
  {
    var hs := PadStart(Digits(elapsed / MsPerHour), 2, '0');
    var ms := PadStart(Digits((elapsed % MsPerHour) / MsPerMinute), 2, '0');
    ClockParts(elapsed, hs, ms);
    hs + ":" + ms
  }

  /** The minutes part pads to two characters, and fewer than 100 hours pad to two as well. */
  lemma ClockParts(elapsed: nat, hs: string, ms: string)
    requires hs == PadStart(Digits(elapsed / MsPerHour), 2, '0')
    requires ms == PadStart(Digits((elapsed % MsPerHour) / MsPerMinute), 2, '0')
    ensures (elapsed % MsPerHour) / MsPerMinute < 60
    ensures |hs| >= 2 && |ms| == 2
    ensures elapsed < 100 * MsPerHour ==> |hs| == 2
  {
    var h := elapsed / MsPerHour;
    var m := (elapsed % MsPerHour) / MsPerMinute;
    assert m < 60;
    assert elapsed < 100 * MsPerHour ==> h < 100;
  }

  /** The parts of a string before and after its first ':' (the whole string and "" when there is none). */
  function SplitAtColon(s: string): (string, string) {
    if s == [] then ([], [])
    else if s[0] == ':' then ([], s[1..])
    else
      var (a, b) := SplitAtColon(s[1..]);
      ([s[0]] + a, b)
  }

  lemma {:induction false} SplitAtColonDigits(a: string, b: string)
    requires AllDigits(a)
    ensures SplitAtColon(a + ":" + b) == (a, b)
  {
    if a == [] {
      assert a + ":" + b == [':'] + b;
    } else {
      var s := a + ":" + b;
      assert s[0] == a[0] && IsDigit(a[0]);
      assert s[1..] == a[1..] + ":" + b;
      assert AllDigits(a[1..]) by {
        forall i | 0 <= i < |a[1..]| ensures IsDigit(a[1..][i]) {
          assert a[1..][i] == a[i + 1];
        }
      }
      SplitAtColonDigits(a[1..], b);
      assert [a[0]] + a[1..] == a;
    }
  }

  /**
   * Reading the uptime text back: it splits at its colon into at least two
   * hour digits and exactly two minute digits, the minutes are below 60, and
   * together they name the whole minutes elapsed.
   */
  lemma UptimeTextDecodes(elapsed: nat)
    ensures var (hs, ms) := SplitAtColon(UptimeText(elapsed));
            && AllDigits(hs) && AllDigits(ms) && |hs| >= 2 && |ms| == 2
            && DigitsValue(ms) < 60
            && MsPerMinute * (60 * DigitsValue(hs) + DigitsValue(ms)) <= elapsed
            && elapsed < MsPerMinute * (60 * DigitsValue(hs) + DigitsValue(ms) + 1)
  {
    var h := elapsed / MsPerHour;
    var m := (elapsed % MsPerHour) / MsPerMinute;
    ClockParts(elapsed, PadStart(Digits(h), 2, '0'), PadStart(Digits(m), 2, '0'));
    var hs := PadStart(Digits(h), 2, '0');
    var ms := PadStart(Digits(m), 2, '0');
    PadStartZerosValue(Digits(h), 2);
    PadStartZerosValue(Digits(m), 2);
    DigitsRoundTrip(h);
    DigitsRoundTrip(m);
    SplitAtColonDigits(hs, ms);
  }
}
