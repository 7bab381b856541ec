/** The mutable state of the current dashboard script: the data-source flag, the
    shop article list and the music settings, with the operations that change them
    once the server's answer is known. */
module Dashboard {
  import opened Js
  import opened Text
  import opened Flux
  import opened Shop
  import opened Music

  class DashboardState {
    /** Whether the aggregate API is still tried (`useDatabase`). */
    var useDatabase: bool
    /** The shop articles shown in the grid (`shopItems`). */
    var shopItems: seq<ShopItem>
    /** The music settings being edited (`currentMusicSettings`). */
    var music: MusicSettings

    constructor ()
      ensures useDatabase && shopItems == [] && music == InitialSettings
    {
      useDatabase := true;
      shopItems := [];
      music := InitialSettings;
    }

    /** `getFluxData`: the aggregate API while it answers, the local copy from the
        first failure on. `stored` is the parsed local copy, if any. */
    method GetFluxData(response: Response, stored: Option<FluxData>) returns (data: FluxData)
      modifies this`useDatabase
      ensures (useDatabase, data) == FetchFlux(old(useDatabase), response, stored)
      ensures !old(useDatabase) ==> !useDatabase && data == LocalFluxData(stored)
    {
      if useDatabase {
        if response.Ok? {
          data := Normalise(response.body);
          return;
        }
        useDatabase := false;
      }
      data := LocalFluxData(stored);
    }

    /** The local fallback of `saveShopItem` when the shop API is unreachable: an edit
        (non-empty `id`) merges the form into the first matching article, a creation
        appends a new article whose id is the clock reading `now`. */
    method SaveShopItemLocally(id: string, form: ShopForm, now: nat)
      modifies this`shopItems
      ensures id != "" ==> shopItems == UpdateLocal(old(shopItems), id, form)
      ensures id == "" ==> shopItems == old(shopItems) + [NewItem(form, now)]
      ensures |shopItems| == |old(shopItems)| + (if id == "" then 1 else 0)
    {
      if id != "" {
        var index := FindIndex(shopItems, id);
        if index.Some? {
          shopItems := shopItems[index.value := Merge(shopItems[index.value], id, form)];
        }
      } else {
        shopItems := shopItems + [NewItem(form, now)];
      }
      UpdateLocalTouchesFirstMatchOnly(old(shopItems), id, form);
    }

    /** The local fallback of `deleteShopItem`: every article with the id is dropped. */
    method DeleteShopItemLocally(id: string)
      modifies this`shopItems
      ensures shopItems == DeleteLocal(old(shopItems), id)
      ensures forall x :: x in shopItems <==> x in old(shopItems) && !Matches(x, id)
    {
      shopItems := DeleteLocal(shopItems, id);
    }

    /** `resetToDefaultMusic`, once the user confirmed (`confirmed`). */
    method ResetToDefaultMusic(confirmed: bool)
      modifies this`music
      ensures confirmed ==> music == ResetToDefault(old(music))
      ensures !confirmed ==> music == old(music)
      ensures music.volume == old(music).volume
    {
      if confirmed {
        music := ResetToDefault(music);
      }
    }

    /** The settings after the server accepted an uploaded music file: the upload's
        address becomes the source; the server's original name, else the file's own name. */
    method ApplyUploadedMusic(url: string, originalName: Option<string>, fileName: string)
      modifies this`music
      ensures music.sourceType == "uploaded" && music.sourceUrl == url
      ensures music.originalFilename == (if Present(originalName) then originalName.value else fileName)
      ensures music.volume == old(music).volume
    {
      music := music.(sourceType := "uploaded");
      music := music.(sourceUrl := url);
      music := music.(originalFilename := if Present(originalName) then originalName.value else fileName);
    }

    /** `saveMusicSettings`: builds the settings to send; when the server answers with
        the stored settings (`saved`), they become the current ones. */
    method SaveMusicSettings(activeTab: Option<string>, urlInput: Option<string>, volume: real,
                             saved: Option<MusicSettings>) returns (toSave: MusicSettings)
      modifies this`music
      ensures SaveShape(toSave) && toSave.volume == volume
      ensures TypedUrl(activeTab, urlInput) != "" && TypedUrl(activeTab, urlInput) != DefaultUrl ==>
        toSave == MusicSettings("url", TypedUrl(activeTab, urlInput), volume, "URL externe")
      ensures TypedUrl(activeTab, urlInput) == DefaultUrl ==> toSave == DefaultSettings(volume)
      ensures TypedUrl(activeTab, urlInput) == "" ==>
        toSave == if old(music).sourceUrl == "" || old(music).sourceUrl == DefaultUrl
                  then DefaultSettings(volume) else old(music).(volume := volume)
      ensures music == (if saved.Some? then saved.value else old(music))
    {
      toSave := PrepareSettings(music, activeTab, urlInput, volume);
      if saved.Some? {
        music := saved.value;
      }
    }
  }
}
