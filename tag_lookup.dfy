// First-match lookup of a tag in an ordered list of tags.
//
// Both registries of the scene manager (textures and materials) are searched
// front to back with an exact, case-sensitive string comparison, and the
// first entry whose tag equals the key wins. That one concept is defined here
// and the registries apply it to the sequence of their entries' tags.
module TagLookup {

  /** Index of the first element of `tags` equal to `tag`, or -1 when none is. */
  function FirstIndexOf(tags: seq<string>, tag: string): (r: int)
    ensures -1 <= r < |tags|
  {
    if tags == [] then -1
    else if tags[0] == tag then 0
    else
      var k := FirstIndexOf(tags[1..], tag);
      if k == -1 then -1 else k + 1
  }

  /** `r` is the answer of a front-to-back scan: -1 on a miss, otherwise the
      least index holding `tag`. */
  predicate IsFirstIndex(tags: seq<string>, tag: string, r: int)
  {
    (r == -1 && tag !in tags) ||
    (0 <= r < |tags| && tags[r] == tag && tag !in tags[..r])
  }

  /** FirstIndexOf is exactly the front-to-back scan: -1 iff no element
      matches, and otherwise the least matching index. */
  lemma {:induction false} FirstIndexOfIsFirst(tags: seq<string>, tag: string)
    ensures IsFirstIndex(tags, tag, FirstIndexOf(tags, tag))
  {
    if tags != [] && tags[0] != tag {
      var k := FirstIndexOf(tags[1..], tag);
      FirstIndexOfIsFirst(tags[1..], tag);
      assert tags == [tags[0]] + tags[1..];
      if k != -1 {
        assert tags[..k + 1] == [tags[0]] + tags[1..][..k];
      }
    }
  }

  /** A scan has one answer: any index with the first-match property is the
      one FirstIndexOf returns. */
  lemma FirstIndexUnique(tags: seq<string>, tag: string, r: int)
    requires IsFirstIndex(tags, tag, r)
    ensures FirstIndexOf(tags, tag) == r
  {
    FirstIndexOfIsFirst(tags, tag);
  }

  /** Shadowing: a lookup in `a + b` finds the entry of `a` whenever `a`
      holds the tag, and only otherwise looks into `b` (its index shifted by
      |a|). So registering a duplicate tag never changes what a lookup returns. */
  lemma FirstIndexOfAppend(a: seq<string>, b: seq<string>, tag: string)
    ensures FirstIndexOf(a + b, tag) ==
      if tag in a then FirstIndexOf(a, tag)
      else if tag in b then |a| + FirstIndexOf(b, tag)
      else -1
  {
    FirstIndexOfIsFirst(a, tag);
    FirstIndexOfIsFirst(b, tag);
    var ka := FirstIndexOf(a, tag);
    var kb := FirstIndexOf(b, tag);
    if tag in a {
      assert (a + b)[..ka] == a[..ka];
      FirstIndexUnique(a + b, tag, ka);
    } else if tag in b {
      assert (a + b)[|a| + kb] == b[kb];
      assert (a + b)[..|a| + kb] == a + b[..kb];
      FirstIndexUnique(a + b, tag, |a| + kb);
    } else {
      FirstIndexUnique(a + b, tag, -1);
    }
  }

  /** When no two elements are equal, looking up the tag at index `i` finds `i`. */
  lemma FirstIndexOfDistinct(tags: seq<string>, i: int)
    requires forall j, k :: 0 <= j < k < |tags| ==> tags[j] != tags[k]
    requires 0 <= i < |tags|
    ensures FirstIndexOf(tags, tags[i]) == i
  {
    assert tags[i] !in tags[..i] by {
      forall j | 0 <= j < i ensures tags[..i][j] != tags[i] {
        assert tags[..i][j] == tags[j];
      }
    }
    FirstIndexUnique(tags, tags[i], i);
  }
}
