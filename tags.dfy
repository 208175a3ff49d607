/**
 * Tag containers as the scanner sees them, and the three per-family tag
 * getters (ID3 for MP3, MP4 atoms, Vorbis comments for FLAC).
 */
module Tags {
  import opened Optional
  import opened Strings

  /**
   * One tag value: a single value, held in its `str()` form, or a list of
   * strings (mutagen's MP4 and Vorbis containers give lists).
   */
  datatype TagValue = Text(text: string) | Items(items: seq<string>)

  /** A tag container's entries in iteration order; its keys are distinct, as in a dict. */
  type TagList = seq<(string, TagValue)>

  /** The position of `key` in `tags`, found from the front. */
  function KeyIndex(tags: TagList, key: string): (r: Option<nat>)
    ensures r.Some? ==> r.value < |tags| && tags[r.value].0 == key
    ensures r.Some? ==> forall j :: 0 <= j < r.value ==> tags[j].0 != key
    ensures r.None? ==> forall j :: 0 <= j < |tags| ==> tags[j].0 != key
  {
    if |tags| == 0 then None
    else if tags[0].0 == key then Some(0)
    else match KeyIndex(tags[1..], key)
      case None => None
      case Some(k) => Some(k + 1)
  }

  /**
   * What a getter returns for a present value: the first element of a
   * non-empty list, otherwise the value's `str()` form (for an empty list,
   * the two characters "[]").
   */
  function Rendered(v: TagValue): string {
    match v
    case Text(s) => s
    case Items(xs) => if |xs| > 0 then xs[0] else "[]"
  }

  /**
   * The ID3 and MP4 getters: nothing when the container has no tags (or
   * an empty one) or lacks `key`, otherwise the rendered value.
   */
  function GetTag(tags: Option<TagList>, key: string): (r: Option<string>)
    ensures r.None? <==> tags.None? || forall j :: 0 <= j < |tags.value| ==> tags.value[j].0 != key
  {
    if tags.None? || |tags.value| == 0 then None
    else match KeyIndex(tags.value, key)
      case None => None
      case Some(i) => Some(Rendered(tags.value[i].1))
  }

  /** The Vorbis-comment getter: the same lookup on the upper-cased key. */
  function GetVorbisTag(tags: Option<TagList>, key: string): Option<string> {
    GetTag(tags, Upper(key))
  }

  /**
   * A present key yields the first element of a non-empty list, the text
   * of a single value, and "[]" for an empty list.
   */
  lemma GetTagReadsEntry(tags: TagList, key: string, i: nat)
    requires i < |tags| && tags[i].0 == key
    requires forall j :: 0 <= j < i ==> tags[j].0 != key
    ensures tags[i].1.Text? ==> GetTag(Some(tags), key) == Some(tags[i].1.text)
    ensures tags[i].1.Items? && tags[i].1.items != [] ==> GetTag(Some(tags), key) == Some(tags[i].1.items[0])
    ensures tags[i].1 == Items([]) ==> GetTag(Some(tags), key) == Some("[]")
  {
    var k := KeyIndex(tags, key);
    assert k.Some? && k.value == i;
  }

  /** The Vorbis keys the extractor asks for are already upper case. */
  lemma VorbisKeysUnchanged(tags: Option<TagList>)
    ensures GetVorbisTag(tags, "TITLE") == GetTag(tags, "TITLE")
    ensures GetVorbisTag(tags, "ARTIST") == GetTag(tags, "ARTIST")
    ensures GetVorbisTag(tags, "ALBUM") == GetTag(tags, "ALBUM")
  {
    assert Upper("TITLE") == "TITLE";
    assert Upper("ARTIST") == "ARTIST";
    assert Upper("ALBUM") == "ALBUM";
  }
}
