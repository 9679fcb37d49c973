/** The linear, first-match-wins scan by string tag that both the texture
    table and the material list use. */
module TagSearch {

  /** The index of the first occurrence of `tag` in `tags`, or -1. */
  function FirstIndex(tags: seq<string>, tag: string): (i: int)
    ensures -1 <= i < |tags|
    ensures i >= 0 ==> tags[i] == tag && forall j :: 0 <= j < i ==> tags[j] != tag
    ensures i == -1 <==> tag !in tags
  {
    if |tags| == 0 then -1
    else if tags[0] == tag then 0
    else
      var k := FirstIndex(tags[1..], tag);
      assert tags == [tags[0]] + tags[1..];
      if k == -1 then -1 else k + 1
  }
}
