/**
 * `MomentCard`: the list entry for one moment, with the location's icon and
 * a preview of the first two "top" tags.
 */
module MomentCard {
  import opened Wrappers
  import opened Text
  import opened Json
  import opened Schema
  import opened AddMoment

  /** The icons of the known locations. */
  const LOCATION_ICONS: map<string, string> := map[
    "Chez moi" := "home",
    "Hôtel" := "bed",
    "Extérieur" := "leaf",
    "Voiture" := "car",
    "Restaurant" := "restaurant",
    "Autre" := "location"
  ]

  /** `LOCATION_ICONS[location] || 'location'`. */
  function LocationIcon(location: string): (r: string)
    ensures location in LOCATION_ICONS ==> r == LOCATION_ICONS[location]
    ensures location !in LOCATION_ICONS ==> r == "location"
    ensures r != ""
  {
    if location in LOCATION_ICONS && LOCATION_ICONS[location] != "" then LOCATION_ICONS[location] else "location"
  }

  /**
   * The icon table: the six known locations, each with its own icon, where
   * only "Autre" shares the generic pin with the unknown locations.
   */
  lemma IconTable()
    ensures LOCATION_ICONS.Keys == {"Chez moi", "Hôtel", "Extérieur", "Voiture", "Restaurant", "Autre"}
    ensures forall a, b :: a in LOCATION_ICONS && b in LOCATION_ICONS && a != b ==> LocationIcon(a) != LocationIcon(b)
    ensures forall l :: LocationIcon(l) == "location" <==> l == "Autre" || l !in LOCATION_ICONS
  {
  }

  /** A location the form offers but the card does not know, such as "Parc", gets the generic pin. */
  lemma ParcFallsBack()
    ensures LocationIcon("Parc") == "location"
    ensures LocationIcon("Chez moi") == "home"
  {
  }

  /** `JSON.parse(topTags || '[]')`, with a failed parse leaving the empty list. */
  function ParsedTags(stored: string): (r: seq<string>)
    ensures stored == "" || stored == "[]" ==> r == []
    ensures DecodeTags(stored).Some? ==> r == DecodeTags(stored).value
    ensures stored != "" && DecodeTags(stored).None? ==> r == []
  {
    var text := if stored == "" then "[]" else stored;
    match DecodeTags(text)
    case Some(tags) => tags
    case None => []
  }

  /** The card reads back exactly the list the add-moment screen serialized. */
  lemma ParsedTagsRoundTrip(tags: seq<string>)
    ensures ParsedTags(EncodeTags(tags)) == tags
  {
    TagsRoundTrip(tags);
  }

  /** `topTags.slice(0, 2)`. */
  function PreviewTags(tags: seq<string>): (r: seq<string>)
    ensures |r| == if |tags| < 2 then |tags| else 2
    ensures r == tags[..|r|]
  {
    if |tags| <= 2 then tags else tags[..2]
  }

  /** `topTags.length > 2`: the badge shows exactly when the preview hides some tag. */
  function HasMoreTags(tags: seq<string>): (r: bool)
    ensures r <==> PreviewTags(tags) != tags
  {
    |tags| > 2
  }

  /** The number shown on the "+k" badge: the tags the preview hides. */
  function MoreCount(tags: seq<string>): (r: int)
    ensures HasMoreTags(tags) ==> r > 0 && r == |tags| - |PreviewTags(tags)|
  {
    |tags| - 2
  }

  /** The preview and the badge account for every tag: the badge shows iff tags are hidden, and counts them. */
  lemma PreviewAccountsForAll(tags: seq<string>)
    ensures HasMoreTags(tags) ==> MoreCount(tags) > 0 && |PreviewTags(tags)| + MoreCount(tags) == |tags|
    ensures !HasMoreTags(tags) <==> PreviewTags(tags) == tags
  {
  }

  /** A moment saved from the form shows the form's first two top tags on its card. */
  lemma CardShowsFormTags(f: Form, id: int, now: string)
    requires !AllWhitespace(f.companion)
    ensures PreviewTags(ParsedTags(NewRow(BuildRecord(f).value, id, now).topTags)) == PreviewTags(f.topTags)
    ensures HasMoreTags(ParsedTags(NewRow(BuildRecord(f).value, id, now).topTags)) <==> |f.topTags| > 2
  {
    StoredAsBuilt(f, id, now);
    ParsedTagsRoundTrip(f.topTags);
  }
}
