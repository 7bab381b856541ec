/** The label and icon lookups of the dashboard: a fixed object indexed by a key,
    with `|| fallback` for keys the object does not have. */
module Labels {

  const EventLabels: map<string, string> := map[
    "page_visit" := "Visite de page",
    "gallery_view" := "Vue galerie",
    "section_view" := "Vue section",
    "music_play" := "Musique jouée",
    "social_click" := "Clic social"]

  const EventIcons: map<string, string> := map[
    "page_visit" := "fa-eye",
    "gallery_view" := "fa-image",
    "section_view" := "fa-scroll",
    "music_play" := "fa-music",
    "social_click" := "fa-share-alt"]

  /** Section names of the current dashboard, `shop` included. */
  const SectionLabels: map<string, string> := map[
    "hero" := "Le Portail",
    "gallery" := "Artefacts",
    "shop" := "Boutique",
    "about" := "L'Atelier",
    "contact" := "Guilde"]

  const PlatformLabels: map<string, string> := map[
    "etsy" := "Etsy",
    "insta" := "Instagram",
    "tiktok" := "TikTok",
    "discord" := "Discord"]

  /** `labels[key] || fallback` */
  function LabelOr(labels: map<string, string>, key: string, fallback: string): string {
    if key in labels && labels[key] != "" then labels[key] else fallback
  }

  /** A lookup in a table whose labels are all non-empty returns the label of a known
      key and the fallback otherwise; keyed by itself, it never yields an empty text
      for a non-empty key. */
  lemma LabelOrLookup(labels: map<string, string>, key: string, fallback: string)
    requires forall k :: k in labels ==> labels[k] != ""
    ensures key in labels ==> LabelOr(labels, key, fallback) == labels[key]
    ensures key !in labels ==> LabelOr(labels, key, fallback) == fallback
    ensures key != "" ==> LabelOr(labels, key, key) != ""
  {
  }

  function EventLabel(kind: string): (r: string)
    ensures kind in EventLabels ==> r == EventLabels[kind]
    ensures kind !in EventLabels ==> r == kind
  {
    LabelOr(EventLabels, kind, kind)
  }

  function EventIcon(kind: string): (r: string)
    ensures kind in EventIcons ==> r == EventIcons[kind]
    ensures kind !in EventIcons ==> r == "fa-circle"
    ensures |r| > 3 && r[..3] == "fa-"
  {
    LabelOr(EventIcons, kind, "fa-circle")
  }

  /** `getSectionLabel`, parameterised by the table of the dashboard copy in use. */
  function SectionLabelIn(labels: map<string, string>, section: string): (r: string)
    ensures (forall k :: k in labels ==> labels[k] != "") ==>
      (section in labels ==> r == labels[section]) && (section !in labels ==> r == section)
  {
    LabelOr(labels, section, section)
  }

  function SectionLabel(section: string): (r: string)
    ensures section in SectionLabels ==> r == SectionLabels[section]
    ensures section !in SectionLabels ==> r == section
    ensures section == "shop" ==> r == "Boutique"
  {
    SectionLabelIn(SectionLabels, section)
  }

  function PlatformLabel(platform: string): (r: string)
    ensures platform in PlatformLabels ==> r == PlatformLabels[platform]
    ensures platform !in PlatformLabels ==> r == platform
    ensures platform != "" ==> r != ""
  {
    LabelOr(PlatformLabels, platform, platform)
  }
}
