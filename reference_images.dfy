/** The bundled reference images (`REFERENCE_IMAGES`): a record from keys
    to image descriptions, and the lookup the Vidu client uses. The asset
    behind each image is named by its file; resolving it to a local URI is
    a call into the asset loader. */
module ReferenceImages {
  import opened Wrappers
  import Themes

  datatype ReferenceImage = ReferenceImage(id: string, name: string, description: string, asset: string)

  /** One `key: image` entry of the record. */
  datatype Entry = Entry(key: string, image: ReferenceImage)

  /** The record's entries in declaration order (the order of `Object.values`). */
  function Table(): seq<Entry> {
    [ Entry("FROG_DRAGON", ReferenceImage("frog_dragon", "Frog Dragon", "A friendly frog dragon", "frog-dragon.png")),
      Entry("LEAF", ReferenceImage("leaf", "Leaf", "An iridescent leaf", "leaf.png"))
    ]
  }

  /** The first entry whose image has the given `id`. */
  function FindById(entries: seq<Entry>, imageId: string): (r: Option<ReferenceImage>)
    ensures r.Some? ==> r.value.id == imageId && exists i :: 0 <= i < |entries| && entries[i].image == r.value
    ensures r.None? <==> forall i :: 0 <= i < |entries| ==> entries[i].image.id != imageId
  {
    if entries == [] then None
    else if entries[0].image.id == imageId then Some(entries[0].image)
    else
      var r := FindById(entries[1..], imageId);
      assert forall i :: 1 <= i < |entries| ==> entries[i] == entries[1..][i - 1];
      r
  }

  /** The entry stored under a record key. */
  function FindByKey(entries: seq<Entry>, key: string): (r: Option<ReferenceImage>)
    ensures r.Some? ==> exists i :: 0 <= i < |entries| && entries[i] == Entry(key, r.value)
    ensures r.None? <==> forall i :: 0 <= i < |entries| ==> entries[i].key != key
  {
    if entries == [] then None
    else if entries[0].key == key then Some(entries[0].image)
    else
      var r := FindByKey(entries[1..], key);
      assert forall i :: 1 <= i < |entries| ==> entries[i] == entries[1..][i - 1];
      r
  }

  /** `getReferenceImageById` as written: it compares against the `id` field. */
  function GetReferenceImageById(imageId: string): (r: Option<ReferenceImage>)
    ensures r.Some? ==> r.value.id == imageId
    ensures r.None? <==> imageId != "frog_dragon" && imageId != "leaf"
  {
    FindById(Table(), imageId)
  }

  /** The lookup the catalogue's references need: `REFERENCE_IMAGES[imageId]`,
      by record key. */
  function GetReferenceImage(key: string): (r: Option<ReferenceImage>)
    ensures r.None? <==> key != "FROG_DRAGON" && key != "LEAF"
    ensures key == "FROG_DRAGON" ==> r == Some(Table()[0].image)
    ensures key == "LEAF" ==> r == Some(Table()[1].image)
  {
    FindByKey(Table(), key)
  }

  /** Keys and ids are each distinct, so both lookups are unambiguous. */
  lemma KeysAndIdsDistinct()
    ensures forall i, j :: 0 <= i < j < |Table()| ==> Table()[i].key != Table()[j].key
    ensures forall i, j :: 0 <= i < j < |Table()| ==> Table()[i].image.id != Table()[j].image.id
  {
  }

  /** As written, no reference key of the theme catalogue is found, so every
      clip is sent with the user image alone. */
  lemma CatalogueReferencesNeverResolveAsWritten(themeId: string, i: int, k: int)
    requires Themes.GetNarrativeClips(themeId).Ok? && 0 <= i < 5
    requires 0 <= k < |Themes.GetNarrativeClips(themeId).value[i].referenceImageIds|
    ensures GetReferenceImageById(Themes.GetNarrativeClips(themeId).value[i].referenceImageIds[k]).None?
  {
    Themes.ReferenceKeysInCatalogue(themeId, i, k);
  }

  /** A concrete case: the river-crossing clip of the fairy tale asks for two
      references and the as-written lookup finds neither. */
  lemma FrogDragonNotFoundAsWritten()
    ensures Themes.GetNarrativeClips("fairy-tale").value[3].referenceImageIds == ["FROG_DRAGON", "LEAF"]
    ensures GetReferenceImageById("FROG_DRAGON") == None
    ensures GetReferenceImageById("LEAF") == None
  {
  }

  /** With the by-key lookup every reference of the catalogue resolves to an
      image of that key. */
  lemma CatalogueReferencesResolve(themeId: string, i: int, k: int)
    requires Themes.GetNarrativeClips(themeId).Ok? && 0 <= i < 5
    requires 0 <= k < |Themes.GetNarrativeClips(themeId).value[i].referenceImageIds|
    ensures GetReferenceImage(Themes.GetNarrativeClips(themeId).value[i].referenceImageIds[k]).Some?
  {
    Themes.ReferenceKeysInCatalogue(themeId, i, k);
  }
}
