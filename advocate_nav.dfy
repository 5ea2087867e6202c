/** The advocate dashboard's tool menu: a declared list of items, some behind
    feature flags, filtered to those switched on. */
module AdvocateNav {

  /** The feature flags of the build. */
  datatype FeatureFlags = FeatureFlags(
    aiDraftGenerator: bool,
    smartCalendar: bool,
    aiBiasMonitor: bool,
    realTimeNotifications: bool,
    voiceAssistant: bool,
    legalFeeEstimator: bool)

  /** The flags as configured. */
  const ConfiguredFlags := FeatureFlags(true, true, true, true, false, false)

  /** One menu entry: the view id it selects, its label's translation key,
      and whether it is switched on. */
  datatype NavEntry = NavEntry(id: string, labelKey: string, flag: bool)

  /** The two tools listed before the drafts tool. */
  const LeadingTools := [
    NavEntry("caserequests", "advocateNav.caseRequests", true),
    NavEntry("airesearch", "advocateNav.aiResearch", true)]

  /** The three tools listed between the drafts tool and the calendar. */
  const MiddleTools := [
    NavEntry("similarcases", "advocateNav.similarCases", true),
    NavEntry("precedentsearch", "advocateNav.precedentSearch", true),
    NavEntry("argumentbuilder", "advocateNav.argumentBuilder", true)]

  /** The declared entries, in menu order. */
  function NavItems(flags: FeatureFlags): seq<NavEntry> {
    LeadingTools + [DraftsEntry(flags)] + MiddleTools + [CalendarEntry(flags)]
  }

  function DraftsEntry(flags: FeatureFlags): NavEntry {
    NavEntry("aidrafts", "advocateNav.aiDrafts", flags.aiDraftGenerator)
  }

  function CalendarEntry(flags: FeatureFlags): NavEntry {
    NavEntry("calendar", "advocateNav.smartCalendar", flags.smartCalendar)
  }

  /** The entry itself when it is switched on, nothing otherwise. */
  function IfOn(e: NavEntry): seq<NavEntry> {
    if e.flag then [e] else []
  }

  /** `items.filter(item => item.flag)`. The contract bounds the length
      only; which entries are kept, and in what order, is stated by
      SwitchedOnMembers and SwitchedOnConcat. */
  function SwitchedOn(items: seq<NavEntry>): (r: seq<NavEntry>)
    ensures |r| <= |items|
  {
    if items == [] then []
    else (if items[0].flag then [items[0]] else []) + SwitchedOn(items[1..])
  }

  /** The filter keeps exactly the entries that are switched on. */
  lemma {:induction false} SwitchedOnMembers(items: seq<NavEntry>, e: NavEntry)
    ensures e in SwitchedOn(items) <==> e in items && e.flag
  {
    if items != [] {
      SwitchedOnMembers(items[1..], e);
      assert items == [items[0]] + items[1..];
    }
  }

  function AvailableNavItems(flags: FeatureFlags): seq<NavEntry> {
    SwitchedOn(NavItems(flags))
  }

  function Ids(items: seq<NavEntry>): (ids: seq<string>)
    ensures |ids| == |items|
    ensures forall i :: 0 <= i < |items| ==> ids[i] == items[i].id
  {
    if items == [] then [] else [items[0].id] + Ids(items[1..])
  }

  /** Filtering a concatenation filters each part. */
  lemma {:induction false} SwitchedOnConcat(a: seq<NavEntry>, b: seq<NavEntry>)
    ensures SwitchedOn(a + b) == SwitchedOn(a) + SwitchedOn(b)
  {
    if a == [] {
      assert a + b == b;
    } else {
      var x, rest := a[0], a[1..];
      assert a + b == [x] + (rest + b);
      SwitchedOnConcat(rest, b);
      SwitchedOnCons(x, rest + b);
      SwitchedOnCons(x, rest);
      assert a == [x] + rest;
    }
  }

  /** One step of the filter. */
  lemma SwitchedOnCons(x: NavEntry, rest: seq<NavEntry>)
    ensures SwitchedOn([x] + rest) == IfOn(x) + SwitchedOn(rest)
  {
    assert ([x] + rest)[1..] == rest;
  }

  /** The ids of a concatenation are the concatenated ids. */
  lemma IdsConcat(a: seq<NavEntry>, b: seq<NavEntry>)
    ensures Ids(a + b) == Ids(a) + Ids(b)
  {
  }

  /** A single entry survives the filter exactly when it is switched on. */
  lemma SwitchedOnSingle(e: NavEntry)
    ensures SwitchedOn([e]) == IfOn(e)
  {
    assert [e][1..] == [];
  }

  /** The offered entries: the five unflagged tools always, in declared order,
      with the drafts tool present exactly when its flag is on and the
      calendar exactly when its flag is on. */
  lemma AvailableEntries(flags: FeatureFlags)
    ensures AvailableNavItems(flags)
      == LeadingTools + IfOn(DraftsEntry(flags)) + MiddleTools + IfOn(CalendarEntry(flags))
  {
    var drafts, calendar := DraftsEntry(flags), CalendarEntry(flags);
    SwitchedOnConcat(LeadingTools + [drafts] + MiddleTools, [calendar]);
    SwitchedOnConcat(LeadingTools + [drafts], MiddleTools);
    SwitchedOnConcat(LeadingTools, [drafts]);
    AllOnKept(LeadingTools);
    AllOnKept(MiddleTools);
    SwitchedOnSingle(drafts);
    SwitchedOnSingle(calendar);
  }

  /** The same menu by id. */
  lemma AvailableIds(flags: FeatureFlags)
    ensures Ids(AvailableNavItems(flags))
      == ["caserequests", "airesearch"]
       + (if flags.aiDraftGenerator then ["aidrafts"] else [])
       + ["similarcases", "precedentsearch", "argumentbuilder"]
       + (if flags.smartCalendar then ["calendar"] else [])
  {
    AvailableEntries(flags);
    var a, b, c, d := LeadingTools, IfOn(DraftsEntry(flags)), MiddleTools, IfOn(CalendarEntry(flags));
    IdsConcat(a + b + c, d);
    IdsConcat(a + b, c);
    IdsConcat(a, b);
    assert Ids(a) == ["caserequests", "airesearch"];
    assert Ids(c) == ["similarcases", "precedentsearch", "argumentbuilder"];
  }

  /** A list whose entries are all switched on passes the filter unchanged. */
  lemma {:induction false} AllOnKept(items: seq<NavEntry>)
    requires forall i :: 0 <= i < |items| ==> items[i].flag
    ensures SwitchedOn(items) == items
  {
    if items != [] {
      AllOnKept(items[1..]);
    }
  }

  /** With the flags as configured, all seven tools are offered. */
  lemma ConfiguredMenu()
    ensures Ids(AvailableNavItems(ConfiguredFlags))
      == ["caserequests", "airesearch", "aidrafts", "similarcases", "precedentsearch", "argumentbuilder", "calendar"]
  {
    AvailableIds(ConfiguredFlags);
  }

  /** No two entries of the list share an id. */
  predicate DistinctIds(items: seq<NavEntry>) {
    forall i, j :: 0 <= i < j < |items| ==> items[i].id != items[j].id
  }

  /** Filtering never makes two entries share an id. */
  lemma {:induction false} SwitchedOnKeepsDistinct(items: seq<NavEntry>)
    requires DistinctIds(items)
    ensures DistinctIds(SwitchedOn(items))
  {
    if items != [] {
      var rest := SwitchedOn(items[1..]);
      SwitchedOnKeepsDistinct(items[1..]);
      if items[0].flag {
        forall k | 0 <= k < |rest| ensures rest[k].id != items[0].id {
          SwitchedOnMembers(items[1..], rest[k]);
        }
      }
    }
  }

  /** The declared ids are pairwise different, whatever the flags. */
  lemma DeclaredIdsDistinct(flags: FeatureFlags)
    ensures DistinctIds(NavItems(flags))
  {
    var items := NavItems(flags);
    forall i, j | 0 <= i < j < |items| ensures items[i].id != items[j].id {
      assert items[i].id[0] != items[j].id[0] || |items[i].id| != |items[j].id|;
    }
  }

  /** No two offered entries share an id. */
  lemma AvailableIdsDistinct(flags: FeatureFlags)
    ensures DistinctIds(AvailableNavItems(flags))
  {
    DeclaredIdsDistinct(flags);
    SwitchedOnKeepsDistinct(NavItems(flags));
  }

  /** The entry at `i` is highlighted when its id is the active view. */
  predicate IsActive(items: seq<NavEntry>, i: int, activeView: string)
    requires 0 <= i < |items|
  {
    items[i].id == activeView
  }

  /** At most one offered entry is highlighted. */
  lemma AtMostOneActive(flags: FeatureFlags, activeView: string, i: int, j: int)
    requires 0 <= i < |AvailableNavItems(flags)| && 0 <= j < |AvailableNavItems(flags)|
    requires IsActive(AvailableNavItems(flags), i, activeView)
    requires IsActive(AvailableNavItems(flags), j, activeView)
    ensures i == j
  {
    AvailableIdsDistinct(flags);
  }

  /** A click sets the active view to the entry's id, which then highlights
      that entry and no other. */
  function ClickTarget(entry: NavEntry): string {
    entry.id
  }

  lemma ClickHighlightsEntry(flags: FeatureFlags, i: int, j: int)
    requires 0 <= i < |AvailableNavItems(flags)| && 0 <= j < |AvailableNavItems(flags)|
    ensures IsActive(AvailableNavItems(flags), j, ClickTarget(AvailableNavItems(flags)[i])) <==> i == j
  {
    AvailableIdsDistinct(flags);
  }
}
