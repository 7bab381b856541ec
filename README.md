# Yukaze3D analytics dashboard — decision logic

This project models the client-side decision code of the site's analytics
dashboard, in the two copies of the dashboard script: the current
`scripts/dashboard.js` (aggregate API with a local-storage fallback, shop and
music administration) and the older `dashboard.js` (local storage only). It
covers:

- how a flux document is obtained and normalised, and the one-way
  `useDatabase` fallback flag;
- the relative-time text of the activity timeline;
- the top-five project ranking and the twenty-event timeline with its detail
  precedence and label/icon lookups;
- the article picture source, the Etsy link fallback and the clearing of
  uploaded picture paths;
- the image and audio upload checks;
- the music settings built on save and on reset;
- the local edits of the article list used when the shop API is unreachable.

Modules: `Js` (JavaScript values and truthiness), `Text` (number text,
`startsWith`, `trim`), `Flux`, `RelativeTime`, `Labels`, `Feed` (ranking and
timeline), `Shop`, `Uploads`, `Music`, `Dashboard` (the class holding the
script's mutable state) and `LegacyDashboard` (what the older copy does
differently). The helpers both copies share are defined once.

Responses of the server, the parsed local-storage document, the clock
(`now`), date parsing (`parse`), the user's confirmation and the form's field
values are parameters. The server side of the API (session store, retention,
aggregation) is not modelled.

Two asymmetries in the code are worth noting:

- The local default document (`getDefaultData`) has no `shop` section and no
  `uniqueVisitors` counter, although an aggregate response without section
  views is given all five sections including `shop`
  (`Flux.DefaultDataLacksUniqueVisitors`).
- A present but partial `sectionViews` object is kept as it is; missing keys
  are not filled in (`Flux.NormaliseKeepsPartialSections`).

## Model

| member | source | states |
|---|---|---|
| `Flux.CounterOrZero` | scripts/dashboard.js:103-110 | a falsy counter becomes 0; a numeric counter keeps its value; the result is always truthy or 0 |
| `Flux.Normalise` | scripts/dashboard.js:102-115 | every counter is `x || 0`; `firstVisit`/`lastVisit` pass through; missing project views and events become empty; missing section views become the five zero sections; missing social clicks become the four zero platforms |
| `Flux.NormaliseFixesNormalised` | scripts/dashboard.js:102-115 | normalisation leaves exactly the normalised documents unchanged, so it is idempotent |
| `Flux.NormaliseFillsSections` | scripts/dashboard.js:112 | without section views the result has keys hero, gallery, shop, about, contact, all 0 |
| `Flux.NormaliseKeepsPartialSections` | scripts/dashboard.js:112 | a present section object is returned unchanged, without default keys merged in |
| `Flux.DefaultDataLacksUniqueVisitors` | scripts/dashboard.js:133-157 | the local default document is not normalised; normalising it only adds `uniqueVisitors: 0` |
| `Flux.LocalFluxData` | scripts/dashboard.js:90-93 | the stored document when there is one, otherwise the default document (visits 0, no first visit) |
| `Flux.FetchFlux` | scripts/dashboard.js:96-131 | the flag stays true exactly when it was true and the response was OK; then the data is the normalised body, otherwise the local document |
| `Flux.NoWayBack` | scripts/dashboard.js:118-131 | once `useDatabase` is false, no sequence of later calls sets it back to true |
| `Flux.DatabaseKeptIff` | scripts/dashboard.js:96-131 | after a series of calls the flag is true if and only if every response was OK |
| `Flux.LocalAfterFailure` | scripts/dashboard.js:126-131 | after one failed fetch, every later call returns the local document whatever the response |
| `Text.DecimalRoundTrip` | scripts/dashboard.js:192-194 | the number text written into the relative-time strings reads back as the same number |
| `Text.Trim` | scripts/dashboard.js:1244 | `trim()` returns a middle slice `s[i..j]` of its input with only ECMAScript whitespace before `i` and from `j` on, and no whitespace at either end of the result; the result is empty exactly when the input is all whitespace |
| `Text.TrimIdempotent` | scripts/dashboard.js:1244 | trimming a trimmed string changes nothing |
| `RelativeTime.Classify` | scripts/dashboard.js:185-194 | "just now" exactly below 60000 ms (negative differences included), minutes below one hour, hours below one day, then days; each count n satisfies n·unit ≤ diff < (n+1)·unit, with 1 ≤ minutes < 60 and 1 ≤ hours < 24 |
| `RelativeTime.Render` | scripts/dashboard.js:191-194 | only "just now" lacks the "Il y a " prefix; minutes end in " min", hours in "h"; a day count ends in " jours" exactly when it is above one |
| `RelativeTime.RenderClassified` | scripts/dashboard.js:185-194 | the text of a difference's bucket is never '--', parses back to the bucket and is written out per range of the difference (the day count is singular only below two days) |
| `RelativeTime.ParseRender` | scripts/dashboard.js:191-194 | every bucket's text parses back to that bucket, so distinct buckets render to distinct texts |
| `RelativeTime.FormatRelativeTime` | scripts/dashboard.js:181-195 | '--' exactly for a missing or empty timestamp; an unparsable date gives "Il y a NaN jour"; otherwise the rendered bucket of the difference, which parses back to that bucket, and the exact text: "À l'instant" below one minute, "Il y a ⌊diff/60000⌋ min" below one hour, "Il y a ⌊diff/3600000⌋h" below one day, "Il y a 1 jour" below two days, then "Il y a ⌊diff/86400000⌋ jours" |
| `RelativeTime.JustNowBelowOneMinute` | scripts/dashboard.js:191 | any difference under one minute, negative ones included, reads "À l'instant" |
| `RelativeTime.DayPlural` | scripts/dashboard.js:194 | one day reads "Il y a 1 jour"; two days or more end in "jours" |
| `Labels.LabelOrLookup` | scripts/dashboard.js:206 | with non-empty labels, the lookup-or-fallback is the label of a known key and the fallback otherwise |
| `Labels.EventLabel` | scripts/dashboard.js:198-207 | known event types get their label, unknown ones are shown as the type itself |
| `Labels.EventIcon` | scripts/dashboard.js:210-219 | known event types get their icon, unknown ones 'fa-circle'; every icon is an `fa-` class |
| `Labels.SectionLabel` | scripts/dashboard.js:309-318 | the five known sections get their label ('shop' → 'Boutique'), others are shown as the key |
| `Labels.PlatformLabel` | scripts/dashboard.js:320-328 | the four platforms get their label, others are shown as the key; never empty for a non-empty key |
| `Feed.InsertByViews` | scripts/dashboard.js:260 | inserting into a view-sorted list keeps it sorted and adds exactly that entry |
| `Feed.SortByViews` | scripts/dashboard.js:259-260 | the sorted entries are a permutation of the input with non-increasing view counts |
| `Feed.PopularProjects` | scripts/dashboard.js:257-266 | the empty state exactly when there are no projects; otherwise min(5, n) rows, non-increasing counts, a sub-multiset of `projectViews` (the same code is at dashboard.js:189-198) |
| `Feed.PopularProjectsAreTop` | scripts/dashboard.js:259-261 | no project left out of the ranking has more views than any project shown |
| `Feed.EventDetails` | scripts/dashboard.js:288-294 | details follow project > section label > platform label > 'Page principale' > ''; the text is empty exactly when no field is set |
| `Feed.RenderEvent` | scripts/dashboard.js:287-305 | a timeline row carries the event type's icon (an `fa-` class) and label, the detail text by precedence and the relative time, which is '--' exactly when the timestamp is missing |
| `Feed.Timeline` | scripts/dashboard.js:278-306 | the empty state exactly when there are no events; otherwise the first min(20, n) events, in stored order, one row each (the same code is at dashboard.js:210-238) |
| `Feed.TimelineIgnoresOlderEvents` | scripts/dashboard.js:280 | events after the twentieth never change the timeline |
| `Shop.ImageSource` | scripts/dashboard.js:521-529 | a file name starting with '/api/images/' or 'http' is used as is; anything else is put under './impression_artefacts/' ('undefined' when missing) |
| `Shop.PreviewSource` | scripts/dashboard.js:762-772 | no preview exactly when the file name is missing or empty; otherwise the grid's image source |
| `Shop.EtsyLink` | scripts/dashboard.js:530 | `etsyUrl`, else `etsy_url`, else ''; empty exactly when neither is set |
| `Shop.ClearUploadedPath` | scripts/dashboard.js:716-723 | only a value starting with '/api/images/' is cleared; other values, web addresses included, are kept |
| `Shop.ClearUploadedPathIdempotent` | scripts/dashboard.js:720-722 | removing the preview twice is the same as once |
| `Shop.FindIndex` | scripts/dashboard.js:829 | the index found is the first whose `String(id)` matches; none exactly when no article matches |
| `Shop.Merge` | scripts/dashboard.js:831 | the edited article takes the id and all five form fields; `etsy_url`, which the form does not carry, is kept |
| `Shop.UpdateLocal` | scripts/dashboard.js:828-832 | the list keeps its length; each article either stays or is a matching article replaced by its merge; no match leaves the list unchanged |
| `Shop.UpdateLocalTouchesFirstMatchOnly` | scripts/dashboard.js:828-832 | the list keeps its length; only the first matching article changes, and it becomes the merge of old and form fields; no match leaves the list unchanged |
| `Shop.MergeKeepsLegacyEtsyLink` | scripts/dashboard.js:831 | an edit with an empty Etsy field still shows the article's old `etsy_url` |
| `Shop.NewItem` | scripts/dashboard.js:834 | a locally created article carries the form's five values (picture, title, description, price, Etsy link), no `etsy_url`, and the id `String(Date.now())` |
| `Shop.DeleteLocal` | scripts/dashboard.js:864 | the remaining articles are exactly the old ones whose id does not match |
| `Shop.DeleteLocalConcat` | scripts/dashboard.js:864 | deletion works piecewise over a concatenation, so the survivors keep their order |
| `Shop.DeleteLocalNoMatch` | scripts/dashboard.js:864 | deleting an id no article has changes nothing; deleting twice is deleting once |
| `Uploads.CheckFile` | scripts/dashboard.js:561-579 | no file does nothing; a type outside the allow-list is rejected first; then a size above the cap is rejected; otherwise accepted |
| `Uploads.CheckImage` | scripts/dashboard.js:566-575 | an image is accepted exactly when its type is jpeg, png, gif or webp and its size is at most 5·1024·1024 bytes |
| `Uploads.CheckAudio` | scripts/dashboard.js:1045-1054 | an audio file is accepted exactly when its type is one of the seven audio types and its size is at most 10·1024·1024 bytes |
| `Uploads.ImageSizeBoundary` | scripts/dashboard.js:573-579 | exactly 5 MB passes, one byte more is too large, and a wrong type is reported whatever the size |
| `Uploads.TypesDisjoint` | scripts/dashboard.js:1045-1046 | no file is accepted by both checks |
| `Music.PrepareSettings` | scripts/dashboard.js:1231-1255 | the settings sent are the default triple or have a non-empty, non-default address; a typed address (url tab, the default tab) is used with 'URL externe' unless it is the default path; otherwise the current source is kept unless its address is empty or the default; the volume is the slider's |
| `Music.ResetToDefault` | scripts/dashboard.js:1212-1220 | the default source with the current volume kept |
| `Dashboard.DashboardState.constructor` | scripts/dashboard.js:927-932 | the dashboard starts with the database flag on, no articles, and theme.mp3 at volume 0.20 |
| `Dashboard.DashboardState.GetFluxData` | scripts/dashboard.js:96-131 | the new flag and the returned data are those of `FetchFlux`; once the flag is off it stays off and the local document is returned |
| `Dashboard.DashboardState.SaveShopItemLocally` | scripts/dashboard.js:825-840 | an edit replaces the list by its local update; a creation appends exactly one article at the end |
| `Dashboard.DashboardState.DeleteShopItemLocally` | scripts/dashboard.js:861-867 | the list becomes its filtered copy, without any matching article |
| `Dashboard.DashboardState.ResetToDefaultMusic` | scripts/dashboard.js:1212-1228 | when confirmed the settings are reset to the default source; the volume never changes |
| `Dashboard.DashboardState.ApplyUploadedMusic` | scripts/dashboard.js:1118-1121 | after an upload the source is 'uploaded' at the upload's address, named by the server's original name or else the file name; the volume is kept |
| `Dashboard.DashboardState.SaveMusicSettings` | scripts/dashboard.js:1231-1277 | the settings sent are those `PrepareSettings` promises for the settings current before the call (typed address, default path, or kept source); the current settings become the server's answer when there is one and are unchanged otherwise |
| `LegacyDashboard.LegacySectionLabel` | dashboard.js:241-249 | only hero, gallery, about and contact have labels; any other key, 'shop' included, is shown as is |
| `LegacyDashboard.SectionLabelsDifferOnlyOnShop` | dashboard.js:241-249 | the two copies agree on every section except 'shop' |
| `LegacyDashboard.LegacyFluxData` | dashboard.js:60-89 | the stored document, or the defaults: all counters 0, no visit dates, no projects or events, sections hero/gallery/about/contact and platforms etsy/insta/tiktok/discord at 0 |
| `LegacyDashboard.LegacyTimeline` | dashboard.js:210-239 | the empty state exactly when there are no events; otherwise min(20, n) rows |
| `LegacyDashboard.ShopEventDetails` | dashboard.js:219-226 | a shop-section event reads 'shop' in the older timeline and 'Boutique' in the current one |

## Left out

- Network calls (`fetch` of the aggregate, shop, upload, authentication and music endpoints): their outcomes are parameters (`Flux.Response`, the `saved` settings, the fallback methods being the failure paths).
- Authentication (`checkAuth`, the password check, sessionStorage): not decision logic of the dashboard data.
- DOM updates, HTML templating, `alert`/`confirm` (the confirmation is a parameter), locale date formatting (`formatDate`, `toLocaleTimeString`).
- The particle background and the simulated upload progress bar: floating point, randomness and animation timers.
- The section-chart percentages and the volume percentage `Math.round(volume*100)`: floating point; the saved volume is a parameter already divided by 100.
- The `isUploading`/`isMusicUploading` guards: they only suppress overlapping asynchronous uploads.
- `loadShopItems`, `loadMusicSettings`, `testMusic` and `updateMusicSettingsUI`: they copy a server answer or a field value into the page.
- JSON parsing of the local-storage text: the stored document is given already parsed; malformed text, which makes `JSON.parse` throw, is not modelled.
- NaN and non-integer numbers: counters and view counts are integers; a non-numeric view count, which makes the sort comparator return NaN, is not modelled.
- A `null` file name is not told apart from a missing one (both are `None`; JavaScript would write 'null' rather than 'undefined' into the local path).
- Keys such as 'toString' that a JavaScript object inherits from its prototype are treated as unknown keys by the label lookups.
- Feed.SortByViews: stability (equal counts keep their stored order, as `Array.prototype.sort` guarantees) is not stated.
- LegacyDashboard.LegacyTimeline: its rows are not restated; they are `Feed.Timeline` with the older section labels.
- The server-side session store, retention enforcement and cross-session aggregation: the server side of the API is not modelled.
- A 200 response whose JSON body is `null` makes `data.visits` throw inside the `try` (scripts/dashboard.js:103), so it takes the failure path; the model counts it as `NotOk`.
- Overlapping `renderDashboard` calls (the 30-second refresh at scripts/dashboard.js:441 and the refresh button at :435) are treated as sequential calls on the one dashboard state.
