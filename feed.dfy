/** The two lists of the dashboard: the five most viewed projects and the
    recent-activity timeline. */
module Feed {
  import opened Js
  import opened Flux
  import opened Labels
  import RelativeTime

  function Min(a: int, b: int): int {
    if a < b then a else b
  }

  /** View counts never increase along the sequence. */
  predicate SortedByViews(s: Entries) {
    forall i, j :: 0 <= i < j < |s| ==> s[i].1 >= s[j].1
  }

  /** An entry with at least the views of a sorted sequence's head can lead it. */
  lemma ConsSorted(x: (string, int), s: Entries)
    requires SortedByViews(s)
    requires s == [] || x.1 >= s[0].1
    ensures SortedByViews([x] + s)
  {
    var r := [x] + s;
    forall i, j | 0 <= i < j < |r|
      ensures r[i].1 >= r[j].1
    {
      if i > 0 {
        assert r[i] == s[i - 1] && r[j] == s[j - 1];
      } else {
        assert r[j] == s[j - 1];
      }
    }
  }

  /** Inserts an entry in front of the first entry with no more views. */
  function InsertByViews(x: (string, int), s: Entries): (r: Entries)
    requires SortedByViews(s)
    ensures SortedByViews(r)
    ensures multiset(r) == multiset(s) + multiset{x}
    ensures |r| == |s| + 1
    ensures r[0] == x || (s != [] && r[0] == s[0])
  {
    if s == [] || x.1 >= s[0].1 then
      ConsSorted(x, s);
      [x] + s
    else
      var t := InsertByViews(x, s[1..]);
      assert [s[0]] + s[1..] == s;
      ConsSorted(s[0], t);
      [s[0]] + t
  }

  /** `entries.sort((a, b) => b[1] - a[1])`: an insertion sort by descending views;
      an entry is placed before every later entry with the same count. */
  function SortByViews(s: Entries): (r: Entries)
    ensures SortedByViews(r)
    ensures multiset(r) == multiset(s)
    ensures |r| == |s|
  {
    if s == [] then []
    else
      assert [s[0]] + s[1..] == s;
      InsertByViews(s[0], SortByViews(s[1..]))
  }

  datatype Ranking = NoProjects | Top(rows: Entries)

  /** `renderPopularProjects`: the five most viewed projects, or the empty state. */
  function PopularProjects(projectViews: Entries): (r: Ranking)
    ensures r.NoProjects? <==> projectViews == []
    ensures r.Top? ==> |r.rows| == Min(5, |projectViews|) && SortedByViews(r.rows)
    ensures r.Top? ==> forall k :: 0 <= k < |r.rows| ==> r.rows[k] in projectViews
    ensures r.Top? ==> multiset(r.rows) <= multiset(projectViews)
  {
    var sorted := SortByViews(projectViews);
    var rows := sorted[..Min(5, |sorted|)];
    if rows == [] then NoProjects
    else
      PrefixOfPermutation(projectViews, sorted, |rows|);
      Top(rows)
  }

  /** A prefix of a rearrangement of `s` takes each entry of `s` at most as often as `s` has it. */
  lemma PrefixOfPermutation<T>(s: seq<T>, p: seq<T>, n: nat)
    requires multiset(p) == multiset(s) && n <= |p|
    ensures multiset(p[..n]) <= multiset(s)
    ensures forall k :: 0 <= k < n ==> p[..n][k] in s
  {
    assert p == p[..n] + p[n..];
    forall k | 0 <= k < n
      ensures p[..n][k] in s
    {
      assert p[..n][k] in multiset(p);
    }
  }

  /** No project left out of the ranking has more views than one shown in it. */
  lemma PopularProjectsAreTop(projectViews: Entries, e: (string, int), k: nat)
    requires PopularProjects(projectViews).Top?
    requires e in projectViews && e !in PopularProjects(projectViews).rows
    requires k < |PopularProjects(projectViews).rows|
    ensures e.1 <= PopularProjects(projectViews).rows[k].1
  {
    var sorted := SortByViews(projectViews);
    var rows := PopularProjects(projectViews).rows;
    assert rows == sorted[..Min(5, |sorted|)];
    assert e in multiset(sorted);
    var j :| 0 <= j < |sorted| && sorted[j] == e;
    assert forall i :: 0 <= i < |rows| ==> rows[i] == sorted[i];
    assert j >= |rows|;
  }

  /** `event.details`: project, else section label, else platform label, else
      'Page principale' for a page, else nothing. */
  function EventDetails(details: Option<Details>, sectionLabels: map<string, string>): (r: string)
    requires forall k :: k in sectionLabels ==> sectionLabels[k] != ""
    ensures r == "" <==> (details.None? ||
      (!Present(details.value.project) && !Present(details.value.section)
       && !Present(details.value.platform) && !Present(details.value.page)))
    ensures details.Some? && Present(details.value.project) ==> r == details.value.project.value
    ensures details.Some? && !Present(details.value.project) && Present(details.value.section) ==>
      r == SectionLabelIn(sectionLabels, details.value.section.value)
    ensures (details.Some? && !Present(details.value.project) && !Present(details.value.section)
             && Present(details.value.platform)) ==> r == PlatformLabel(details.value.platform.value)
    ensures (details.Some? && !Present(details.value.project) && !Present(details.value.section)
             && !Present(details.value.platform) && Present(details.value.page)) ==> r == "Page principale"
  {
    match details
    case None => ""
    case Some(d) =>
      if Present(d.project) then d.project.value
      else if Present(d.section) then
        LabelOrLookup(sectionLabels, d.section.value, d.section.value);
        SectionLabelIn(sectionLabels, d.section.value)
      else if Present(d.platform) then PlatformLabel(d.platform.value)
      else if Present(d.page) then "Page principale"
      else ""
  }

  datatype TimelineRow = TimelineRow(icon: string, kindLabel: string, details: string, time: string)

  datatype ActivityView = NoActivity | Rows(rows: seq<TimelineRow>)

  function RenderEvent(e: Event, sectionLabels: map<string, string>,
                       parse: string -> Option<int>, now: int): (r: TimelineRow)
    requires forall k :: k in sectionLabels ==> sectionLabels[k] != ""
    ensures r.icon == EventIcon(e.kind) && r.kindLabel == EventLabel(e.kind)
    ensures r.details == EventDetails(e.details, sectionLabels)
    ensures r.time == RelativeTime.FormatRelativeTime(e.timestamp, parse, now)
    ensures r.time == "--" <==> !Present(e.timestamp)
    ensures |r.icon| > 3 && r.icon[..3] == "fa-"
  {
    TimelineRow(EventIcon(e.kind), EventLabel(e.kind), EventDetails(e.details, sectionLabels),
                RelativeTime.FormatRelativeTime(e.timestamp, parse, now))
  }

  /** `renderTimeline`: the first twenty stored events, in stored order, or the empty state. */
  function Timeline(events: seq<Event>, sectionLabels: map<string, string>,
                    parse: string -> Option<int>, now: int): (t: ActivityView)
    requires forall k :: k in sectionLabels ==> sectionLabels[k] != ""
    ensures t.NoActivity? <==> events == []
    ensures t.Rows? ==> |t.rows| == Min(20, |events|)
    ensures t.Rows? ==> forall i :: 0 <= i < |t.rows| ==>
      t.rows[i] == RenderEvent(events[i], sectionLabels, parse, now)
  {
    var shown := events[..Min(20, |events|)];
    if shown == [] then NoActivity
    else Rows(seq(|shown|, i requires 0 <= i < |shown| => RenderEvent(shown[i], sectionLabels, parse, now)))
  }

  /** Events past the twentieth never reach the timeline. */
  lemma TimelineIgnoresOlderEvents(events: seq<Event>, older: seq<Event>, sectionLabels: map<string, string>,
                                   parse: string -> Option<int>, now: int)
    requires forall k :: k in sectionLabels ==> sectionLabels[k] != ""
    requires |events| >= 20
    ensures Timeline(events + older, sectionLabels, parse, now) == Timeline(events, sectionLabels, parse, now)
  {
    var t1 := Timeline(events + older, sectionLabels, parse, now);
    var t2 := Timeline(events, sectionLabels, parse, now);
    assert t1.Rows? && t2.Rows?;
    assert forall i :: 0 <= i < 20 ==> (events + older)[i] == events[i];
    assert t1.rows == t2.rows;
  }

  /** The current dashboard's timeline, with its own section labels. */
  function CurrentTimeline(events: seq<Event>, parse: string -> Option<int>, now: int): ActivityView {
    Timeline(events, SectionLabels, parse, now)
  }
}
