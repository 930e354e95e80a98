/** The records the screen lists and the sections it groups them into. */
module Records {

  /** One social-media entry of a contact (ReturnedData.SocialMedia). Immutable. */
  datatype SocialMedia = SocialMedia(id: string, name: string, socialType: string, url: string)

  /**
   * One table section (SocialMediaGrouped): its collapse flag, its category and
   * its entries. The field names keep the spelling of the original struct.
   */
  datatype SocialMediaGrouped = SocialMediaGrouped(isColapsed: bool, cattegoryName: string, socialMedia: seq<SocialMedia>)

  /** `sub` is obtained from `s` by deleting elements, keeping the rest in order. */
  predicate IsSubsequence<T(==)>(sub: seq<T>, s: seq<T>)
    decreases |s|
  {
    if sub == [] then true
    else if s == [] then false
    else if sub[0] == s[0] then IsSubsequence(sub[1..], s[1..])
    else IsSubsequence(sub, s[1..])
  }

  /** A subsequence of the tail is a subsequence of the whole. */
  lemma {:induction false} SkipHead<T>(sub: seq<T>, s: seq<T>)
    requires s != [] && IsSubsequence(sub, s[1..])
    ensures IsSubsequence(sub, s)
    decreases |s|, 0
  {
    if sub != [] && sub[0] == s[0] {
      if |s| > 1 {
        assert IsSubsequence(sub[1..], s[1..]) by {
          SubsequenceTail(sub, s[1..]);
        }
      }
    }
  }

  /** Dropping the first element of a subsequence keeps it a subsequence. */
  lemma {:induction false} SubsequenceTail<T>(sub: seq<T>, s: seq<T>)
    requires sub != [] && IsSubsequence(sub, s)
    ensures IsSubsequence(sub[1..], s)
    decreases |s|, 1
  {
    if sub[0] == s[0] {
      if s[1..] != [] { SkipHead(sub[1..], s); }
    } else {
      SubsequenceTail(sub, s[1..]);
      SkipHead(sub[1..], s);
    }
  }

  /** No element occurs twice. */
  predicate Distinct<T(==)>(s: seq<T>) {
    forall i, j :: 0 <= i < j < |s| ==> s[i] != s[j]
  }

  /** The set of elements of a sequence. */
  function Elements<T>(s: seq<T>): set<T> {
    set x | x in s
  }

  /** A sequence without duplicates has as many elements as its set. */
  lemma {:induction false} DistinctCardinality<T>(s: seq<T>)
    requires Distinct(s)
    ensures |Elements(s)| == |s|
  {
    if s != [] {
      DistinctCardinality(s[1..]);
      assert Elements(s) == {s[0]} + Elements(s[1..]);
      assert s[0] !in Elements(s[1..]) by {
        forall k | 0 <= k < |s[1..]| ensures s[1..][k] != s[0] {
          assert s[1..][k] == s[k + 1];
        }
      }
    }
  }
}
