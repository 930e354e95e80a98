/** The search bar's filter over the full record list. */
module Search {
  import opened Records

  /** `name.hasPrefix(prefix)`, with strings taken as sequences of characters. */
  predicate HasPrefix(name: string, prefix: string) {
    prefix <= name
  }

  /**
   * `socialMedia.filter { $0.name.hasPrefix(searchText) }`: the records whose
   * name starts with `searchText` (case-sensitive), in their original order.
   */
  function FilterByNamePrefix(records: seq<SocialMedia>, searchText: string): (result: seq<SocialMedia>)
    ensures |result| <= |records|
    ensures forall x :: x in result ==> x in records && HasPrefix(x.name, searchText)
  {
    if records == [] then []
    else if HasPrefix(records[0].name, searchText) then [records[0]] + FilterByNamePrefix(records[1..], searchText)
    else FilterByNamePrefix(records[1..], searchText)
  }

  /**
   * The filter keeps every matching record as often as the full list holds it,
   * and drops every other one.
   */
  lemma {:induction false} FilterKeepsExactlyMatching(records: seq<SocialMedia>, searchText: string, x: SocialMedia)
    ensures multiset(FilterByNamePrefix(records, searchText))[x]
         == if HasPrefix(x.name, searchText) then multiset(records)[x] else 0
  {
    if records != [] {
      FilterKeepsExactlyMatching(records[1..], searchText, x);
      assert records == [records[0]] + records[1..];
    }
  }

  /** The filter keeps the records it selects in their original relative order. */
  lemma {:induction false} FilterKeepsOrder(records: seq<SocialMedia>, searchText: string)
    ensures IsSubsequence(FilterByNamePrefix(records, searchText), records)
  {
    if records != [] {
      FilterKeepsOrder(records[1..], searchText);
      var rest := FilterByNamePrefix(records[1..], searchText);
      if HasPrefix(records[0].name, searchText) {
        assert ([records[0]] + rest)[1..] == rest;
      } else {
        SkipHead(rest, records);
      }
    }
  }

  /** Empty search text matches every name: the filter is the identity. */
  lemma {:induction false} EmptySearchKeepsAll(records: seq<SocialMedia>)
    ensures FilterByNamePrefix(records, "") == records
  {
    if records != [] {
      EmptySearchKeepsAll(records[1..]);
      assert records == [records[0]] + records[1..];
    }
  }
}
