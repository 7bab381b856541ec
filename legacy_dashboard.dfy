/** The older, local-storage-only copy of the dashboard script. Its relative-time
    formatting, event labels and icons, platform labels and project ranking are the
    same as the current script's (modules RelativeTime, Labels and Feed); what differs
    is modelled here: the section labels have no `shop` entry, and the flux data only
    ever comes from local storage. */
module LegacyDashboard {
  import opened Js
  import opened Flux
  import opened Labels
  import opened Feed

  const LegacySectionLabels: map<string, string> := map[
    "hero" := "Le Portail",
    "gallery" := "Artefacts",
    "about" := "L'Atelier",
    "contact" := "Guilde"]

  /** `getSectionLabel` of the older copy. */
  function LegacySectionLabel(section: string): (r: string)
    ensures section in LegacySectionLabels ==> r == LegacySectionLabels[section]
    ensures section !in LegacySectionLabels ==> r == section
  {
    SectionLabelIn(LegacySectionLabels, section)
  }

  /** The two copies label every section alike except `shop`, which only the current
      copy names. */
  lemma SectionLabelsDifferOnlyOnShop(section: string)
    ensures section != "shop" ==> LegacySectionLabel(section) == SectionLabel(section)
    ensures LegacySectionLabel("shop") == "shop" && SectionLabel("shop") == "Boutique"
  {
  }

  /** `getFluxData` of the older copy: the stored document, or the defaults when
      nothing is stored. */
  function LegacyFluxData(stored: Option<FluxData>): (d: FluxData)
    ensures stored.Some? ==> d == stored.value
    ensures stored.None? ==>
      && d.visits == Num(0) && d.sessions == Num(0) && d.interactions == Num(0)
      && d.galleryViews == Num(0) && d.musicPlays == Num(0)
      && d.firstVisit.None? && d.lastVisit.None?
      && d.projectViews == Some([]) && d.events == Some([])
      && d.sectionViews.Some? && KeysOf(d.sectionViews.value) == ["hero", "gallery", "about", "contact"]
      && AllZero(d.sectionViews.value)
      && d.socialClicks.Some? && KeysOf(d.socialClicks.value) == ["etsy", "insta", "tiktok", "discord"]
      && AllZero(d.socialClicks.value)
  {
    var d := LocalFluxData(stored);
    assert stored.None? ==> KeysOf(d.sectionViews.value) == ["hero", "gallery", "about", "contact"];
    assert stored.None? ==> KeysOf(d.socialClicks.value) == ["etsy", "insta", "tiktok", "discord"];
    d
  }

  /** `renderTimeline` of the older copy: the same rows, with the older section labels. */
  function LegacyTimeline(events: seq<Event>, parse: string -> Option<int>, now: int): (t: ActivityView)
    ensures t.NoActivity? <==> events == []
    ensures t.Rows? ==> |t.rows| == Min(20, |events|)
  {
    Timeline(events, LegacySectionLabels, parse, now)
  }

  /** A shop-section event reads "Boutique" in the current timeline and "shop" in the older one. */
  lemma ShopEventDetails(e: Event, parse: string -> Option<int>, now: int)
    requires e.details.Some? && !Present(e.details.value.project)
    requires e.details.value.section == Some("shop")
    ensures LegacyTimeline([e], parse, now).rows[0].details == "shop"
    ensures CurrentTimeline([e], parse, now).rows[0].details == "Boutique"
  {
  }
}
