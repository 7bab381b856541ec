/** The dashboard's view of the aggregated flux metrics: where they come from
    (the aggregate API or the browser's local copy) and how a response is
    normalised before it is rendered. */
module Flux {
  import opened Js

  /** Ordered key/value entries of a metric object (`Object.entries` order). */
  type Entries = seq<(string, int)>

  /** The optional fields of an event's `details` object. */
  datatype Details = Details(project: Option<string>, section: Option<string>,
                             platform: Option<string>, page: Option<string>)

  datatype Event = Event(kind: string, details: Option<Details>, timestamp: Option<string>)

  /** A flux document. Counters are raw JSON values; a missing object or array is `None`. */
  datatype FluxData = FluxData(
    visits: JsValue, sessions: JsValue,
    firstVisit: Option<string>, lastVisit: Option<string>,
    interactions: JsValue, galleryViews: JsValue, musicPlays: JsValue, uniqueVisitors: JsValue,
    projectViews: Option<Entries>, sectionViews: Option<Entries>, socialClicks: Option<Entries>,
    events: Option<seq<Event>>)

  function KeysOf(e: Entries): seq<string> {
    seq(|e|, i requires 0 <= i < |e| => e[i].0)
  }

  predicate AllZero(e: Entries) {
    forall i :: 0 <= i < |e| ==> e[i].1 == 0
  }

  /** The section defaults filled in for an aggregate response that has none. */
  const DefaultSectionViews: Entries :=
    [("hero", 0), ("gallery", 0), ("shop", 0), ("about", 0), ("contact", 0)]

  const DefaultSocialClicks: Entries :=
    [("etsy", 0), ("insta", 0), ("tiktok", 0), ("discord", 0)]

  /** `getDefaultData`: no `uniqueVisitors` key, and section views without `shop`. */
  function DefaultData(): FluxData {
    FluxData(Num(0), Num(0), None, None, Num(0), Num(0), Num(0), Undefined,
             Some([]), Some([("hero", 0), ("gallery", 0), ("about", 0), ("contact", 0)]),
             Some(DefaultSocialClicks), Some([]))
  }

  /** A counter after normalisation is a truthy value or the number 0. */
  predicate NormalCounter(v: JsValue) {
    Truthy(v) || v == Num(0)
  }

  /** `v || 0` */
  function CounterOrZero(v: JsValue): (r: JsValue)
    ensures NormalCounter(r)
    ensures !Truthy(v) ==> r == Num(0)
    ensures v.Num? ==> r == v
    ensures NormalCounter(v) ==> r == v
  {
    if Truthy(v) then v else Num(0)
  }

  predicate Normalised(d: FluxData) {
    && NormalCounter(d.visits) && NormalCounter(d.sessions) && NormalCounter(d.interactions)
    && NormalCounter(d.galleryViews) && NormalCounter(d.musicPlays) && NormalCounter(d.uniqueVisitors)
    && d.projectViews.Some? && d.sectionViews.Some? && d.socialClicks.Some? && d.events.Some?
  }

  /** The defaults applied to an aggregate API response. */
  function Normalise(d: FluxData): (r: FluxData)
    ensures Normalised(r)
    ensures r.firstVisit == d.firstVisit && r.lastVisit == d.lastVisit
    ensures r.visits == CounterOrZero(d.visits) && r.sessions == CounterOrZero(d.sessions)
    ensures r.interactions == CounterOrZero(d.interactions)
    ensures r.galleryViews == CounterOrZero(d.galleryViews)
    ensures r.musicPlays == CounterOrZero(d.musicPlays)
    ensures r.uniqueVisitors == CounterOrZero(d.uniqueVisitors)
    ensures r.projectViews == Some(d.projectViews.GetOr([]))
    ensures r.sectionViews == Some(d.sectionViews.GetOr(DefaultSectionViews))
    ensures r.socialClicks == Some(d.socialClicks.GetOr(DefaultSocialClicks))
    ensures r.events == Some(d.events.GetOr([]))
  {
    FluxData(
      CounterOrZero(d.visits), CounterOrZero(d.sessions), d.firstVisit, d.lastVisit,
      CounterOrZero(d.interactions), CounterOrZero(d.galleryViews), CounterOrZero(d.musicPlays),
      CounterOrZero(d.uniqueVisitors),
      Some(d.projectViews.GetOr([])),
      Some(d.sectionViews.GetOr(DefaultSectionViews)),
      Some(d.socialClicks.GetOr(DefaultSocialClicks)),
      Some(d.events.GetOr([])))
  }

  /** Normalisation changes nothing in a document that is already normalised,
      so applying it twice is the same as applying it once. */
  lemma NormaliseFixesNormalised(d: FluxData)
    ensures Normalised(d) <==> Normalise(d) == d
    ensures Normalise(Normalise(d)) == Normalise(d)
  {
  }

  /** A response without section views gets all five sections, `shop` included, at zero. */
  lemma NormaliseFillsSections(d: FluxData)
    requires d.sectionViews.None?
    ensures KeysOf(Normalise(d).sectionViews.value) == ["hero", "gallery", "shop", "about", "contact"]
    ensures AllZero(Normalise(d).sectionViews.value)
  {
  }

  /** A present section object is kept as it is: missing keys are not filled in. */
  lemma NormaliseKeepsPartialSections(d: FluxData, e: Entries)
    requires d.sectionViews == Some(e)
    ensures Normalise(d).sectionViews == Some(e)
  {
  }

  /** The local default data is not itself normalised: it lacks `uniqueVisitors`. */
  lemma DefaultDataLacksUniqueVisitors()
    ensures !Normalised(DefaultData())
    ensures Normalise(DefaultData()) == DefaultData().(uniqueVisitors := Num(0))
  {
  }

  /** `getFluxDataLocal`: the stored document, or the default data when nothing is stored. */
  function LocalFluxData(stored: Option<FluxData>): (r: FluxData)
    ensures stored.Some? ==> r == stored.value
    ensures stored.None? ==> r == DefaultData() && r.visits == Num(0) && r.firstVisit.None?
  {
    stored.GetOr(DefaultData())
  }

  /** The outcome of `fetch('/api/flux/aggregate')` and `response.json()`. */
  datatype Response = NetworkError | NotOk | Ok(body: FluxData)

  /** One `getFluxData` call: the new value of `useDatabase` and the data returned. */
  function FetchFlux(useDatabase: bool, response: Response, stored: Option<FluxData>): (r: (bool, FluxData))
    ensures r.0 <==> useDatabase && response.Ok?
    ensures r.0 ==> r.1 == Normalise(response.body)
    ensures !r.0 ==> r.1 == LocalFluxData(stored)
  {
    if useDatabase && response.Ok? then (true, Normalise(response.body))
    else (false, LocalFluxData(stored))
  }

  /** The flag after a series of `getFluxData` calls meeting the given responses. */
  function FlagAfter(useDatabase: bool, responses: seq<Response>): bool
    decreases |responses|
  {
    if responses == [] then useDatabase
    else FlagAfter(FetchFlux(useDatabase, responses[0], None).0, responses[1..])
  }

  /** Once the database is abandoned it is never tried again. */
  lemma {:induction false} NoWayBack(responses: seq<Response>)
    ensures !FlagAfter(false, responses)
    decreases |responses|
  {
    if responses != [] {
      NoWayBack(responses[1..]);
    }
  }

  /** The database stays in use exactly as long as every response was successful. */
  lemma {:induction false} DatabaseKeptIff(responses: seq<Response>)
    ensures FlagAfter(true, responses) <==> forall i :: 0 <= i < |responses| ==> responses[i].Ok?
    decreases |responses|
  {
    if responses != [] {
      if responses[0].Ok? {
        DatabaseKeptIff(responses[1..]);
        assert forall i :: 1 <= i < |responses| ==> responses[i] == responses[1..][i - 1];
      } else {
        NoWayBack(responses[1..]);
      }
    }
  }

  /** After one failed fetch, every later call returns the local data whatever the response. */
  lemma LocalAfterFailure(responses: seq<Response>, i: nat, j: nat, stored: Option<FluxData>)
    requires i < j <= |responses| && !responses[i].Ok?
    ensures forall later: Response ::
      FetchFlux(FlagAfter(true, responses[..j]), later, stored).1 == LocalFluxData(stored)
  {
    DatabaseKeptIff(responses[..j]);
    assert responses[..j][i] == responses[i];
  }
}
