/** Shop articles as the dashboard handles them: where an article's picture comes
    from, its Etsy link, and the local fallback edits of the article list used when
    the shop API cannot be reached. */
module Shop {
  import opened Js
  import opened Text

  /** An article id is a number or a string; ids are compared as `String(id)`. */
  datatype ItemId = NumId(n: int) | StrId(s: string)

  function IdString(id: ItemId): string {
    match id
    case NumId(n) => IntString(n)
    case StrId(s) => s
  }

  /** A shop article. `etsyLegacyUrl` is the older `etsy_url` field. */
  datatype ShopItem = ShopItem(id: ItemId, fichier: Option<string>, titre: Option<string>,
                               description: Option<string>, prix: Option<string>,
                               etsyUrl: Option<string>, etsyLegacyUrl: Option<string>)

  /** The values of the article form's fields. */
  datatype ShopForm = ShopForm(fichier: string, titre: string, description: string,
                               prix: string, etsyUrl: string)

  const UploadedPrefix := "/api/images/"
  const LocalImageDir := "./impression_artefacts/"

  /** The picture path of an article: uploaded paths and web addresses as they are,
      anything else under the local artefact folder (a missing file name is written
      out as JavaScript does, `undefined`). */
  function ImageSource(fichier: Option<string>): (r: string)
    ensures fichier.Some? && (StartsWith(fichier.value, UploadedPrefix) || StartsWith(fichier.value, "http"))
      ==> r == fichier.value
    ensures fichier.Some? && !StartsWith(fichier.value, UploadedPrefix) && !StartsWith(fichier.value, "http")
      ==> r == LocalImageDir + fichier.value
    ensures fichier.None? ==> r == LocalImageDir + "undefined"
  {
    if Present(fichier) && StartsWith(fichier.value, UploadedPrefix) then fichier.value
    else if Present(fichier) && StartsWith(fichier.value, "http") then fichier.value
    else LocalImageDir + (if fichier.Some? then fichier.value else "undefined")
  }

  /** The preview shown when an article is opened for editing: none when it has no
      file name, otherwise the same source as in the article grid. */
  function PreviewSource(fichier: Option<string>): (r: Option<string>)
    ensures r.None? <==> !Present(fichier)
    ensures r.Some? ==> r.value == ImageSource(fichier)
    ensures r.Some? ==> (StartsWith(r.value, UploadedPrefix) || StartsWith(r.value, "http")
                         || (StartsWith(r.value, LocalImageDir) && |r.value| > |LocalImageDir|))
  {
    if !Present(fichier) then None
    else
      var f := fichier.value;
      if StartsWith(f, UploadedPrefix) then Some(f)
      else if StartsWith(f, "http") then Some(f)
      else
        assert StartsWith(LocalImageDir + f, LocalImageDir);
        Some(LocalImageDir + f)
  }

  /** `item.etsyUrl || item.etsy_url || ''` */
  function EtsyLink(item: ShopItem): (r: string)
    ensures r == "" <==> !Present(item.etsyUrl) && !Present(item.etsyLegacyUrl)
    ensures Present(item.etsyUrl) ==> r == item.etsyUrl.value
    ensures !Present(item.etsyUrl) && Present(item.etsyLegacyUrl) ==> r == item.etsyLegacyUrl.value
  {
    FirstPresent(item.etsyUrl, item.etsyLegacyUrl)
  }

  /** `removeImagePreview`: the file field is cleared only when it holds an uploaded path. */
  function ClearUploadedPath(value: string): (r: string)
    ensures r == "" <==> StartsWith(value, UploadedPrefix) || value == ""
    ensures !StartsWith(value, UploadedPrefix) ==> r == value
    ensures !StartsWith(r, UploadedPrefix)
  {
    if StartsWith(value, UploadedPrefix) then "" else value
  }

  lemma ClearUploadedPathIdempotent(value: string)
    ensures ClearUploadedPath(ClearUploadedPath(value)) == ClearUploadedPath(value)
  {
  }

  predicate Matches(item: ShopItem, id: string) {
    IdString(item.id) == id
  }

  /** `items.findIndex(i => String(i.id) === String(id))` */
  function FindIndex(items: seq<ShopItem>, id: string): (r: Option<nat>)
    ensures r.Some? ==> (r.value < |items| && Matches(items[r.value], id)
                         && forall k :: 0 <= k < r.value ==> !Matches(items[k], id))
    ensures r.None? <==> forall k :: 0 <= k < |items| ==> !Matches(items[k], id)
  {
    if items == [] then None
    else if Matches(items[0], id) then Some(0)
    else match FindIndex(items[1..], id)
      case None => None
      case Some(k) => Some(k + 1)
  }

  /** `{ ...item, ...itemData }` for an edit: the form's fields and the id overwrite
      the old ones; fields the form does not carry, such as `etsy_url`, are kept. */
  function Merge(item: ShopItem, id: string, form: ShopForm): (r: ShopItem)
    ensures IdString(r.id) == id
    ensures r.fichier == Some(form.fichier) && r.titre == Some(form.titre)
    ensures r.description == Some(form.description) && r.prix == Some(form.prix)
    ensures r.etsyUrl == Some(form.etsyUrl) && r.etsyLegacyUrl == item.etsyLegacyUrl
  {
    item.(id := StrId(id), fichier := Some(form.fichier), titre := Some(form.titre),
          description := Some(form.description), prix := Some(form.prix),
          etsyUrl := Some(form.etsyUrl))
  }

  /** The local fallback of an edit: the first article with the given id takes the
      form's values, everything else stays as it was. */
  function UpdateLocal(items: seq<ShopItem>, id: string, form: ShopForm): (r: seq<ShopItem>)
    ensures |r| == |items|
    ensures forall k :: 0 <= k < |items| ==>
      r[k] == items[k] || (Matches(items[k], id) && r[k] == Merge(items[k], id, form))
    ensures (forall k :: 0 <= k < |items| ==> !Matches(items[k], id)) ==> r == items
  {
    match FindIndex(items, id)
    case None => items
    case Some(i) => items[i := Merge(items[i], id, form)]
  }

  lemma UpdateLocalTouchesFirstMatchOnly(items: seq<ShopItem>, id: string, form: ShopForm)
    ensures |UpdateLocal(items, id, form)| == |items|
    ensures forall k :: 0 <= k < |items| && UpdateLocal(items, id, form)[k] != items[k] ==>
      Matches(items[k], id) && forall j :: 0 <= j < k ==> !Matches(items[j], id)
    ensures forall k :: (0 <= k < |items| && Matches(items[k], id)
                         && (forall j :: 0 <= j < k ==> !Matches(items[j], id))) ==>
      UpdateLocal(items, id, form)[k] == Merge(items[k], id, form)
    ensures (forall k :: 0 <= k < |items| ==> !Matches(items[k], id)) ==> UpdateLocal(items, id, form) == items
  {
    match FindIndex(items, id)
    case None =>
    case Some(i) =>
  }

  /** A merged article still shows its old `etsy_url` when the form's Etsy field is empty. */
  lemma MergeKeepsLegacyEtsyLink(item: ShopItem, id: string, form: ShopForm)
    requires form.etsyUrl == "" && Present(item.etsyLegacyUrl)
    ensures EtsyLink(Merge(item, id, form)) == item.etsyLegacyUrl.value
  {
  }

  /** The article the local fallback of a creation appends; its id is `String(Date.now())`. */
  function NewItem(form: ShopForm, now: nat): (r: ShopItem)
    ensures IdString(r.id) == Decimal(now)
    ensures r.fichier == Some(form.fichier) && r.titre == Some(form.titre)
    ensures r.description == Some(form.description) && r.prix == Some(form.prix)
    ensures r.etsyUrl == Some(form.etsyUrl) && r.etsyLegacyUrl.None?
  {
    ShopItem(StrId(Decimal(now)), Some(form.fichier), Some(form.titre), Some(form.description),
             Some(form.prix), Some(form.etsyUrl), None)
  }

  /** `items.filter(i => String(i.id) !== String(id))` */
  function DeleteLocal(items: seq<ShopItem>, id: string): (r: seq<ShopItem>)
    ensures |r| <= |items|
    ensures forall x :: x in r <==> x in items && !Matches(x, id)
  {
    if items == [] then []
    else if Matches(items[0], id) then DeleteLocal(items[1..], id)
    else [items[0]] + DeleteLocal(items[1..], id)
  }

  /** Deletion keeps the surviving articles in their order: it works piecewise. */
  lemma {:induction false} DeleteLocalConcat(a: seq<ShopItem>, b: seq<ShopItem>, id: string)
    ensures DeleteLocal(a + b, id) == DeleteLocal(a, id) + DeleteLocal(b, id)
    decreases |a|
  {
    if a != [] {
      assert (a + b)[1..] == a[1..] + b;
      DeleteLocalConcat(a[1..], b, id);
    } else {
      assert a + b == b;
    }
  }

  /** Deleting an id no article has leaves the list unchanged; deleting twice is deleting once. */
  lemma {:induction false} DeleteLocalNoMatch(items: seq<ShopItem>, id: string)
    ensures (forall k :: 0 <= k < |items| ==> !Matches(items[k], id)) ==> DeleteLocal(items, id) == items
    ensures DeleteLocal(DeleteLocal(items, id), id) == DeleteLocal(items, id)
    decreases |items|
  {
    if items != [] {
      DeleteLocalNoMatch(items[1..], id);
      var r := DeleteLocal(items, id);
      forall k | 0 <= k < |r| ensures !Matches(r[k], id) {
        assert r[k] in r;
      }
      DeleteLocalNoMatchAll(r, id);
    }
  }

  lemma {:induction false} DeleteLocalNoMatchAll(items: seq<ShopItem>, id: string)
    requires forall k :: 0 <= k < |items| ==> !Matches(items[k], id)
    ensures DeleteLocal(items, id) == items
    decreases |items|
  {
    if items != [] {
      DeleteLocalNoMatchAll(items[1..], id);
      assert [items[0]] + items[1..] == items;
    }
  }
}
