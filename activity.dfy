// The activity log page and the dashboard's recent-activity card: the
// three chained filters of the log page, the "time ago" buckets both show,
// the log page's statistics, and the icon and badge each kind gets.
// Times are milliseconds since the epoch; the current time is a parameter.
module Activity {
  import opened Wrappers
  import opened Strings
  import opened Lists

  datatype ActivityType = Chat | FileUpload | Action | ModelChange | System

  /** The `type` string the log carries. */
  function TypeName(k: ActivityType): string {
    match k
    case Chat => "chat"
    case FileUpload => "file_upload"
    case Action => "action"
    case ModelChange => "model_change"
    case System => "system"
  }

  lemma TypeNameInjective(k1: ActivityType, k2: ActivityType)
    ensures TypeName(k1) == TypeName(k2) <==> k1 == k2
  {
    if k1 != k2 {
      assert TypeName(k1)[..2] != TypeName(k2)[..2] || TypeName(k1)[2..] != TypeName(k2)[2..];
    }
  }

  datatype ActivityLog = ActivityLog(
    id: string,
    kind: ActivityType,
    description: string,
    details: Option<string>,
    timestamp: int)

  const Hour := 60 * 60 * 1000
  const Day := 24 * Hour
  const Week := 7 * Day

  // ---------------------------------------------------------------------
  // Filters

  /** Case-insensitive search in the description or, when present, the details. */
  predicate MatchesSearch(a: ActivityLog, term: string) {
    Contains(Lower(a.description), Lower(term)) ||
    (a.details.Some? && Contains(Lower(a.details.value), Lower(term)))
  }

  /** The time-filter cutoff; a value other than the three known ones falls back to the epoch. */
  function Cutoff(timeFilter: string, now: int): (c: int)
    ensures timeFilter == "1h" ==> c == now - Hour
    ensures timeFilter == "1d" ==> c == now - Day
    ensures timeFilter == "1w" ==> c == now - Week
    ensures timeFilter != "1h" && timeFilter != "1d" && timeFilter != "1w" ==> c == 0
  {
    if timeFilter == "1h" then now - Hour
    else if timeFilter == "1d" then now - Day
    else if timeFilter == "1w" then now - Week
    else 0
  }

  function SearchStage(term: string): ActivityLog -> bool {
    (a: ActivityLog) => MatchesSearch(a, term)
  }

  function TypeStage(typeFilter: string): ActivityLog -> bool {
    (a: ActivityLog) => TypeName(a.kind) == typeFilter
  }

  function Since(cutoff: int): ActivityLog -> bool {
    (a: ActivityLog) => a.timestamp >= cutoff
  }

  /** The filter effect: search (skipped for an empty term), then type, then time, each skipped for "all". */
  function FilteredActivities(acts: seq<ActivityLog>, term: string, typeFilter: string, timeFilter: string, now: int)
    : (r: seq<ActivityLog>)
  {
    var s1 := if term != "" then Filter(acts, SearchStage(term)) else acts;
    var s2 := if typeFilter != "all" then Filter(s1, TypeStage(typeFilter)) else s1;
    if timeFilter != "all" then Filter(s2, Since(Cutoff(timeFilter, now))) else s2
  }

  /** Reference rule: an activity is shown when it passes every active filter. */
  predicate Kept(a: ActivityLog, term: string, typeFilter: string, timeFilter: string, now: int) {
    (term == "" || MatchesSearch(a, term)) &&
    (typeFilter == "all" || TypeName(a.kind) == typeFilter) &&
    (timeFilter == "all" || a.timestamp >= Cutoff(timeFilter, now))
  }

  function KeptStage(term: string, typeFilter: string, timeFilter: string, now: int): ActivityLog -> bool {
    (a: ActivityLog) => Kept(a, term, typeFilter, timeFilter, now)
  }

  /** One stage that may be switched off is a filter by "off or passes". */
  lemma OptionalStage(s: seq<ActivityLog>, on: bool, p: ActivityLog -> bool, q: ActivityLog -> bool)
    requires forall i :: 0 <= i < |s| ==> (q(s[i]) <==> !on || p(s[i]))
    ensures (if on then Filter(s, p) else s) == Filter(s, q)
  {
    if on {
      FilterSame(s, p, q);
    } else {
      FilterAll(s, q);
    }
  }

  /** The three chained filters are one filter by the reference rule. */
  lemma FilteredIsKept(acts: seq<ActivityLog>, term: string, typeFilter: string, timeFilter: string, now: int)
    ensures FilteredActivities(acts, term, typeFilter, timeFilter, now) == Filter(acts, KeptStage(term, typeFilter, timeFilter, now))
  {
    var p1 := (a: ActivityLog) => term == "" || MatchesSearch(a, term);
    var p2 := (a: ActivityLog) => typeFilter == "all" || TypeName(a.kind) == typeFilter;
    var p3 := (a: ActivityLog) => timeFilter == "all" || a.timestamp >= Cutoff(timeFilter, now);
    var p12 := (a: ActivityLog) => p1(a) && p2(a);
    var s1 := if term != "" then Filter(acts, SearchStage(term)) else acts;
    var s2 := if typeFilter != "all" then Filter(s1, TypeStage(typeFilter)) else s1;
    OptionalStage(acts, term != "", SearchStage(term), p1);
    OptionalStage(Filter(acts, p1), typeFilter != "all", TypeStage(typeFilter), p2);
    FilterTwice(acts, p1, p2, p12);
    OptionalStage(Filter(acts, p12), timeFilter != "all", Since(Cutoff(timeFilter, now)), p3);
    FilterTwice(acts, p12, p3, KeptStage(term, typeFilter, timeFilter, now));
  }

  /** What the page shows: an order-preserving part of the log, holding exactly the activities the rule keeps. */
  lemma FilteredActivitiesSpec(acts: seq<ActivityLog>, term: string, typeFilter: string, timeFilter: string, now: int)
    ensures var r := FilteredActivities(acts, term, typeFilter, timeFilter, now);
      IsSubsequence(r, acts) &&
      (forall a :: a in r <==> a in acts && Kept(a, term, typeFilter, timeFilter, now)) &&
      (term == "" && typeFilter == "all" && timeFilter == "all" ==> r == acts)
  {
    FilteredIsKept(acts, term, typeFilter, timeFilter, now);
    FilterIsSubsequence(acts, KeptStage(term, typeFilter, timeFilter, now));
  }

  // ---------------------------------------------------------------------
  // "Time ago" (the same function in both components)

  datatype Ago = JustNow | MinutesAgo(minutes: nat) | HoursAgo(hours: nat) | DaysAgo(days: nat)

  /** Whole seconds elapsed, `Math.floor(ms / 1000)`; Dafny's division by a positive divisor floors too. */
  function ElapsedSeconds(now: int, timestamp: int): int {
    (now - timestamp) / 1000
  }

  function TimeAgo(now: int, timestamp: int): (r: Ago)
    ensures var d := ElapsedSeconds(now, timestamp);
      (r.JustNow? <==> d < 60) &&
      (r.MinutesAgo? <==> 60 <= d < 3600) &&
      (r.HoursAgo? <==> 3600 <= d < 86400) &&
      (r.DaysAgo? <==> 86400 <= d) &&
      (r.MinutesAgo? ==> 1 <= r.minutes <= 59 && r.minutes * 60 <= d < (r.minutes + 1) * 60) &&
      (r.HoursAgo? ==> 1 <= r.hours <= 23 && r.hours * 3600 <= d < (r.hours + 1) * 3600) &&
      (r.DaysAgo? ==> 1 <= r.days && r.days * 86400 <= d < (r.days + 1) * 86400)
  {
    var d := ElapsedSeconds(now, timestamp);
    if d < 60 then JustNow
    else if d < 3600 then MinutesAgo(d / 60)
    else if d < 86400 then HoursAgo(d / 3600)
    else DaysAgo(d / 86400)
  }

  /** The label: "Just now", "Nm ago", "Nh ago" or "Nd ago". */
  function AgoText(a: Ago): (r: string)
    ensures r == "Just now" <==> a.JustNow?
    ensures !a.JustNow? ==> |r| > 4 && r[|r| - 4..] == " ago" && IsDigit(r[0])
  {
    match a
    case JustNow => "Just now"
    case MinutesAgo(m) => Counted(m, 'm')
    case HoursAgo(h) => Counted(h, 'h')
    case DaysAgo(n) => Counted(n, 'd')
  }

  /** A count, its unit letter and " ago". */
  function Counted(n: nat, unit: char): (r: string)
    ensures |r| > 4 && r[|r| - 4..] == " ago" && IsDigit(r[0]) && r != "Just now"
  {
    var digits := NatToString(n);
    assert (digits + [unit] + " ago")[|digits| + 1..] == " ago";
    assert (digits + [unit] + " ago")[0] == digits[0];
    digits + [unit] + " ago"
  }

  function FormatTimeAgo(now: int, timestamp: int): (r: string)
    ensures r == "Just now" <==> ElapsedSeconds(now, timestamp) < 60
    ensures ElapsedSeconds(now, timestamp) >= 60 ==> |r| > 4 && r[|r| - 4..] == " ago" && IsDigit(r[0])
  {
    AgoText(TimeAgo(now, timestamp))
  }

  /** The start, in seconds, of the stretch a label covers. */
  function AgoFloor(a: Ago): nat {
    match a
    case JustNow => 0
    case MinutesAgo(m) => m * 60
    case HoursAgo(h) => h * 3600
    case DaysAgo(n) => n * 86400
  }

  /** An older entry never gets a more recent label than a newer one. */
  lemma TimeAgoMonotone(now: int, older: int, newer: int)
    requires older <= newer
    ensures AgoFloor(TimeAgo(now, newer)) <= AgoFloor(TimeAgo(now, older))
  {
    var d1 := ElapsedSeconds(now, newer);
    var d2 := ElapsedSeconds(now, older);
    assert d1 <= d2 by {
      DivMonotone(now - newer, now - older, 1000);
    }
    var a1 := TimeAgo(now, newer);
    var a2 := TimeAgo(now, older);
    if a1.MinutesAgo? && a2.MinutesAgo? {
      DivMonotone(d1, d2, 60);
    } else if a1.HoursAgo? && a2.HoursAgo? {
      DivMonotone(d1, d2, 3600);
    } else if a1.DaysAgo? && a2.DaysAgo? {
      DivMonotone(d1, d2, 86400);
    }
  }

  lemma DivMonotone(x: int, y: int, k: int)
    requires x <= y && k > 0
    ensures x / k <= y / k
  {
    assert (x / k) * k <= x;
    assert y < (y / k + 1) * k;
    MulLess(x / k, y / k + 1, k);
  }

  lemma MulLess(a: int, b: int, k: int)
    requires a * k < b * k && k > 0
    ensures a < b
  {
  }

  // ---------------------------------------------------------------------
  // Statistics

  function Last24h(acts: seq<ActivityLog>, now: int): nat {
    Count(acts, Since(now - Day))
  }

  function Last7d(acts: seq<ActivityLog>, now: int): nat {
    Count(acts, Since(now - Week))
  }

  /**
   * `getActivityStats` reads the clock once per count: `now` for the
   * 24-hour figure and `later` for the 7-day one. The 24-hour figure stays
   * within the 7-day one as long as the second reading comes less than six
   * days after the first.
   */
  lemma Last24hWithinLast7d(acts: seq<ActivityLog>, now: int, later: int)
    requires now <= later <= now + Week - Day
    ensures Last24h(acts, now) <= Last7d(acts, later)
  {
    FilterMonotone(acts, Since(now - Day), Since(later - Week));
  }

  /** A missing key of the `reduce` accumulator reads as 0 (`acc[type] || 0`). */
  function StatOf(m: map<ActivityType, nat>, k: ActivityType): nat {
    if k in m then m[k] else 0
  }

  /** `typeStats`: the `reduce` over the log, one increment per entry, in order. */
  function TypeStats(acts: seq<ActivityLog>): (m: map<ActivityType, nat>)
    decreases |acts|
  {
    if |acts| == 0 then map[]
    else
      var m := TypeStats(acts[..|acts| - 1]);
      var k := acts[|acts| - 1].kind;
      m[k := StatOf(m, k) + 1]
  }

  function OfKind(k: ActivityType): ActivityLog -> bool {
    (a: ActivityLog) => a.kind == k
  }

  /** Each kind's figure is the number of entries of that kind. */
  lemma {:induction false} TypeStatsCounts(acts: seq<ActivityLog>, k: ActivityType)
    ensures StatOf(TypeStats(acts), k) == Count(acts, OfKind(k))
    decreases |acts|
  {
    if |acts| > 0 {
      var init := acts[..|acts| - 1];
      var last := acts[|acts| - 1];
      TypeStatsCounts(init, k);
      FilterAppend(init, last, OfKind(k));
      assert init + [last] == acts;
    }
  }

  /** A kind is a key of the accumulator only when some entry has it. */
  lemma {:induction false} TypeStatsKeys(acts: seq<ActivityLog>, k: ActivityType)
    ensures k in TypeStats(acts) <==> exists i :: 0 <= i < |acts| && acts[i].kind == k
    decreases |acts|
  {
    if |acts| > 0 {
      var init := acts[..|acts| - 1];
      TypeStatsKeys(init, k);
      if k in TypeStats(init) {
        var i :| 0 <= i < |init| && init[i].kind == k;
        assert acts[i] == init[i];
      }
      if exists i :: 0 <= i < |acts| && acts[i].kind == k {
        var i :| 0 <= i < |acts| && acts[i].kind == k;
        if i < |init| {
          assert init[i] == acts[i];
        }
      }
    }
  }

  function Total(m: map<ActivityType, nat>): nat {
    StatOf(m, Chat) + StatOf(m, FileUpload) + StatOf(m, Action) + StatOf(m, ModelChange) + StatOf(m, System)
  }

  lemma TotalStep(m: map<ActivityType, nat>, k: ActivityType)
    ensures Total(m[k := StatOf(m, k) + 1]) == Total(m) + 1
  {
    var m1 := m[k := StatOf(m, k) + 1];
    assert forall j :: j != k ==> StatOf(m1, j) == StatOf(m, j);
  }

  /** The per-kind figures add up to the length of the log. */
  lemma {:induction false} TypeStatsSum(acts: seq<ActivityLog>)
    ensures Total(TypeStats(acts)) == |acts|
    decreases |acts|
  {
    if |acts| > 0 {
      var init := acts[..|acts| - 1];
      TypeStatsSum(init);
      TotalStep(TypeStats(init), acts[|acts| - 1].kind);
    }
  }

  // ---------------------------------------------------------------------
  // Icons and badges

  datatype Icon = MessageSquareIcon | FileTextIcon | ActivityIcon | BrainIcon | RefreshIcon

  datatype Glyph = Glyph(icon: Icon, color: string)

  /** The log page's icons; every kind has its own. */
  function PageIcon(k: ActivityType): (g: Glyph) {
    match k
    case Chat => Glyph(MessageSquareIcon, "text-blue-500")
    case FileUpload => Glyph(FileTextIcon, "text-green-500")
    case Action => Glyph(ActivityIcon, "text-purple-500")
    case ModelChange => Glyph(BrainIcon, "text-orange-500")
    case System => Glyph(RefreshIcon, "text-gray-500")
  }

  /** The card knows four kinds; anything else takes the grey default. */
  function CardIcon(k: ActivityType): (g: Glyph) {
    match k
    case Chat => Glyph(MessageSquareIcon, "text-blue-500")
    case FileUpload => Glyph(FileTextIcon, "text-green-500")
    case Action => Glyph(ActivityIcon, "text-purple-500")
    case ModelChange => Glyph(BrainIcon, "text-orange-500")
    case System => Glyph(ActivityIcon, "text-gray-500")
  }

  lemma IconsDistinct(k1: ActivityType, k2: ActivityType)
    requires k1 != k2
    ensures PageIcon(k1).icon != PageIcon(k2).icon
    ensures CardIcon(k1) != CardIcon(k2)
  {
    assert "text-purple-500"[5] != "text-gray-500"[5];
  }

  /** The card's badge text. */
  function CardBadge(k: ActivityType): string {
    match k
    case Chat => "Chat"
    case FileUpload => "Upload"
    case Action => "Action"
    case ModelChange => "Model"
    case System => "Other"
  }

  /** Only the kind the card does not know gets its default badge and grey icon. */
  lemma CardDefaults(k: ActivityType)
    ensures CardBadge(k) == "Other" <==> k == System
    ensures CardIcon(k) == Glyph(ActivityIcon, "text-gray-500") <==> k == System
  {
    assert "text-purple-500"[5] != "text-gray-500"[5];
  }

  /** The log page's badge: the type with its first '_' turned into a space, in the kind's colours. */
  function PageBadgeText(k: ActivityType): string {
    ReplaceFirst(TypeName(k), "_", " ")
  }

  function PageBadgeColors(k: ActivityType): string {
    match k
    case Chat => "bg-blue-100 text-blue-800 border-blue-200"
    case FileUpload => "bg-green-100 text-green-800 border-green-200"
    case Action => "bg-purple-100 text-purple-800 border-purple-200"
    case ModelChange => "bg-orange-100 text-orange-800 border-orange-200"
    case System => "bg-gray-100 text-gray-800 border-gray-200"
  }

  lemma SingleOccurrence(n: string, i: nat)
    requires i < |n| && n[i] == '_' && '_' !in n[..i] && '_' !in n[i + 1..]
    ensures ReplaceFirst(n, "_", " ") == n[..i] + " " + n[i + 1..]
    ensures '_' !in ReplaceFirst(n, "_", " ")
  {
    forall j: nat | j < i ensures !OccursAt(n, "_", j) {
      assert n[j..j + 1] == [n[..i][j]];
    }
    assert n[i..i + 1] == "_";
    ReplaceFirstAt(n, "_", " ", i);
  }

  lemma NoOccurrence(n: string)
    requires '_' !in n
    ensures ReplaceFirst(n, "_", " ") == n
  {
    forall j: nat | j + 1 <= |n| ensures !OccursAt(n, "_", j) {
      assert n[j..j + 1] == [n[j]];
    }
  }

  /** Every type name holds at most one '_', so the page's badge shows none. */
  lemma PageBadgeHasNoUnderscore(k: ActivityType)
    ensures '_' !in PageBadgeText(k)
    ensures |PageBadgeText(k)| == |TypeName(k)|
  {
    var n := TypeName(k);
    if k == FileUpload {
      SingleOccurrence(n, 4);
    } else if k == ModelChange {
      SingleOccurrence(n, 5);
    } else {
      NoOccurrence(n);
    }
  }

  // ---------------------------------------------------------------------
  // The log page

  class ActivityPage {
    var activities: seq<ActivityLog>
    var filteredActivities: seq<ActivityLog>
    var isLoading: bool
    var searchTerm: string
    var typeFilter: string
    var timeFilter: string

    constructor()
      ensures activities == [] && filteredActivities == [] && isLoading
      ensures searchTerm == "" && typeFilter == "all" && timeFilter == "all"
    {
      activities, filteredActivities, isLoading := [], [], true;
      searchTerm, typeFilter, timeFilter := "", "all", "all";
    }

    /** The filter effect, run whenever the log or a filter changes. */
    method ApplyFilters(now: int)
      modifies this`filteredActivities
      ensures filteredActivities == FilteredActivities(activities, searchTerm, typeFilter, timeFilter, now)
    {
      var filtered := activities;
      if searchTerm != "" {
        filtered := Filter(filtered, SearchStage(searchTerm));
      }
      if typeFilter != "all" {
        filtered := Filter(filtered, TypeStage(typeFilter));
      }
      if timeFilter != "all" {
        filtered := Filter(filtered, Since(Cutoff(timeFilter, now)));
      }
      filteredActivities := filtered;
    }

    /** The log arrives (its generation is not modelled); the effect then filters it. */
    method Loaded(log: seq<ActivityLog>, now: int)
      modifies this`activities, this`filteredActivities, this`isLoading
      ensures activities == log && !isLoading
      ensures filteredActivities == FilteredActivities(log, searchTerm, typeFilter, timeFilter, now)
    {
      activities := log;
      isLoading := false;
      ApplyFilters(now);
    }

    method SetSearchTerm(term: string, now: int)
      modifies this`searchTerm, this`filteredActivities
      ensures searchTerm == term
      ensures filteredActivities == FilteredActivities(activities, term, typeFilter, timeFilter, now)
    {
      searchTerm := term;
      ApplyFilters(now);
    }

    method SetTypeFilter(f: string, now: int)
      modifies this`typeFilter, this`filteredActivities
      ensures typeFilter == f
      ensures filteredActivities == FilteredActivities(activities, searchTerm, f, timeFilter, now)
    {
      typeFilter := f;
      ApplyFilters(now);
    }

    method SetTimeFilter(f: string, now: int)
      modifies this`timeFilter, this`filteredActivities
      ensures timeFilter == f
      ensures filteredActivities == FilteredActivities(activities, searchTerm, typeFilter, f, now)
    {
      timeFilter := f;
      ApplyFilters(now);
    }
  }
}
