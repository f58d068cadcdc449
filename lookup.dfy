// Lookup tables: an ordered list of tags, where a tag's position is its
// index. The board's tag tables (inputs, switches, trims, special and
// cyclic sources, legacy trim sources) and the fixed spacemouse table are
// all of this shape. Lookups return -1 on a miss, as the board queries do.

module LookupTables {

  /** No tag occurs twice. */
  predicate Distinct(tags: seq<string>)
  {
    forall i, j :: 0 <= i < j < |tags| ==> tags[i] != tags[j]
  }

  /** Position of the first occurrence of `s` in `tags`, or -1 when `s` is not a tag. */
  function IndexOf(tags: seq<string>, s: string): (r: int)
    ensures -1 <= r < |tags|
    ensures r == -1 <==> s !in tags
    ensures r >= 0 ==> tags[r] == s && s !in tags[..r]
  {
    if |tags| == 0 then -1
    else if tags[0] == s then 0
    else
      var k := IndexOf(tags[1..], s);
      assert tags[1..][..if k < 0 then 0 else k] == tags[1..if k < 0 then 1 else k + 1];
      if k < 0 then -1 else k + 1
  }

  /** The tag at `index`, or the empty text when there is none. */
  function TagOf(tags: seq<string>, index: int): string
  {
    if 0 <= index < |tags| then tags[index] else ""
  }

  /** In a table without duplicates, looking up the tag at an index gives back that index. */
  lemma IndexOfTagOf(tags: seq<string>, i: int)
    requires Distinct(tags)
    requires 0 <= i < |tags|
    ensures IndexOf(tags, TagOf(tags, i)) == i
  {
  }

  /** A successful lookup is undone by TagOf: the found index holds the text looked up. */
  lemma TagOfIndexOf(tags: seq<string>, s: string)
    requires s in tags
    ensures TagOf(tags, IndexOf(tags, s)) == s
  {
  }
}
