/**
 * Partition of records into sections by `socialType`, as done by
 * `Dictionary(grouping:by:)` followed by one fresh section per dictionary
 * entry, and the collapse toggle of one section.
 */
module Grouping {
  import opened Records

  /** The distinct categories occurring in `records`. */
  function Categories(records: seq<SocialMedia>): set<string> {
    set x | x in records :: x.socialType
  }

  /** The records of one category, in input order: the value of one dictionary entry. */
  function GroupMembers(records: seq<SocialMedia>, category: string): (members: seq<SocialMedia>)
    ensures forall x :: x in members ==> x in records && x.socialType == category
  {
    if records == [] then []
    else (if records[0].socialType == category then [records[0]] else []) + GroupMembers(records[1..], category)
  }

  /** A category that does not occur has no members. */
  lemma {:induction false} AbsentCategoryIsEmpty(records: seq<SocialMedia>, category: string)
    requires category !in Categories(records)
    ensures GroupMembers(records, category) == []
  {
    if records != [] {
      assert records[0] in records;
      assert Categories(records[1..]) <= Categories(records) by {
        forall c | c in Categories(records[1..]) ensures c in Categories(records) {
          var x :| x in records[1..] && x.socialType == c;
          assert x in records;
        }
      }
      AbsentCategoryIsEmpty(records[1..], category);
    }
  }

  /** A category that occurs has at least one member. */
  lemma {:induction false} PresentCategoryIsNonEmpty(records: seq<SocialMedia>, category: string)
    requires category in Categories(records)
    ensures GroupMembers(records, category) != []
  {
    if records[0].socialType != category {
      var x :| x in records && x.socialType == category;
      assert x in records[1..];
      PresentCategoryIsNonEmpty(records[1..], category);
    }
  }

  /** Categories of a non-empty sequence: the head's and the tail's. */
  lemma CategoriesCons(records: seq<SocialMedia>)
    requires records != []
    ensures Categories(records) == {records[0].socialType} + Categories(records[1..])
  {
    assert records == [records[0]] + records[1..];
    forall c | c in Categories(records) ensures c in {records[0].socialType} + Categories(records[1..]) {
      var x :| x in records && x.socialType == c;
      if x != records[0] { assert x in records[1..]; }
    }
  }

  /**
   * `Dictionary(grouping: records, by: { $0.socialType })`, built record by
   * record: one key per category and, under it, that category's records in
   * input order.
   */
  function GroupingBySocialType(records: seq<SocialMedia>): (dict: map<string, seq<SocialMedia>>)
    ensures dict.Keys == Categories(records)
    ensures forall c :: c in dict ==> dict[c] == GroupMembers(records, c)
  {
    if records == [] then map[]
    else
      var rest := GroupingBySocialType(records[1..]);
      var key := records[0].socialType;
      CategoriesCons(records);
      if key in rest then rest[key := [records[0]] + rest[key]]
      else
        AbsentCategoryIsEmpty(records[1..], key);
        rest[key := [records[0]]]
  }

  /**
   * `order` is an iteration order of a dictionary whose keys are `keys`:
   * every key exactly once, in some order the dictionary does not specify.
   */
  predicate IsIterationOrder(order: seq<string>, keys: set<string>) {
    Distinct(order) && Elements(order) == keys
  }

  /** Every finite key set has an iteration order. */
  lemma {:induction false} IterationOrderExists(keys: set<string>)
    ensures exists order :: IsIterationOrder(order, keys)
    decreases keys
  {
    if keys == {} {
      assert IsIterationOrder([], keys);
    } else {
      var c :| c in keys;
      IterationOrderExists(keys - {c});
      var rest :| IsIterationOrder(rest, keys - {c});
      var order := [c] + rest;
      assert Elements(order) == keys by {
        forall d ensures d in Elements(order) <==> d in keys {
          assert d in order <==> d == c || d in rest;
          assert d in rest <==> d in Elements(rest);
        }
      }
      assert Distinct(order) by {
        forall i, j | 0 <= i < j < |order| ensures order[i] != order[j] {
          assert order[j] == rest[j - 1];
          if i > 0 { assert order[i] == rest[i - 1]; }
          else { assert rest[j - 1] in Elements(rest); }
        }
      }
      assert IsIterationOrder(order, keys);
    }
  }

  /**
   * The sections `prepareReturnedData` builds from `records` when the
   * dictionary is iterated in `order`: one expanded section per category.
   */
  function Rebuilt(records: seq<SocialMedia>, order: seq<string>): seq<SocialMediaGrouped> {
    seq(|order|, k requires 0 <= k < |order| => SocialMediaGrouped(false, order[k], GroupMembers(records, order[k])))
  }

  /** All members of all sections, section after section. */
  function Flatten(groups: seq<SocialMediaGrouped>): seq<SocialMedia> {
    if groups == [] then [] else groups[0].socialMedia + Flatten(groups[1..])
  }

  /** The records of one category appear in the group in input order. */
  lemma {:induction false} GroupMembersKeepsOrder(records: seq<SocialMedia>, category: string)
    ensures IsSubsequence(GroupMembers(records, category), records)
  {
    if records != [] {
      GroupMembersKeepsOrder(records[1..], category);
      var rest := GroupMembers(records[1..], category);
      if records[0].socialType == category {
        assert ([records[0]] + rest)[1..] == rest;
      } else {
        assert GroupMembers(records, category) == rest;
        SkipHead(rest, records);
      }
    }
  }

  /** A group holds each record of its category as often as the input does, and no other. */
  lemma {:induction false} GroupMembersCount(records: seq<SocialMedia>, category: string, x: SocialMedia)
    ensures multiset(GroupMembers(records, category))[x]
         == if x.socialType == category then multiset(records)[x] else 0
  {
    if records != [] {
      GroupMembersCount(records[1..], category, x);
      assert records == [records[0]] + records[1..];
    }
  }

  /** Grouping distributes over concatenation. */
  lemma {:induction false} GroupMembersAppend(a: seq<SocialMedia>, b: seq<SocialMedia>, category: string)
    ensures GroupMembers(a + b, category) == GroupMembers(a, category) + GroupMembers(b, category)
  {
    if a != [] {
      GroupMembersAppend(a[1..], b, category);
      assert (a + b)[0] == a[0] && (a + b)[1..] == a[1..] + b;
      var head := if a[0].socialType == category then [a[0]] else [];
      calc {
        GroupMembers(a + b, category);
        head + GroupMembers(a[1..] + b, category);
        head + (GroupMembers(a[1..], category) + GroupMembers(b, category));
        (head + GroupMembers(a[1..], category)) + GroupMembers(b, category);
      }
    } else {
      assert a + b == b;
    }
  }

  /** Grouping a group again by its own category keeps it, by any other empties it. */
  lemma {:induction false} GroupMembersOfGroup(records: seq<SocialMedia>, own: string, category: string)
    ensures GroupMembers(GroupMembers(records, own), category)
         == if category == own then GroupMembers(records, own) else []
  {
    if records != [] {
      GroupMembersOfGroup(records[1..], own, category);
      var head := if records[0].socialType == own then [records[0]] else [];
      GroupMembersAppend(head, GroupMembers(records[1..], own), category);
    }
  }

  /** The records whose category lies in `cats`, in input order. */
  function InCategories(records: seq<SocialMedia>, cats: set<string>): seq<SocialMedia> {
    if records == [] then []
    else (if records[0].socialType in cats then [records[0]] else []) + InCategories(records[1..], cats)
  }

  /** Adding one category to `cats` adds exactly that category's group. */
  lemma {:induction false} SplitCategory(records: seq<SocialMedia>, category: string, cats: set<string>)
    requires category !in cats
    ensures multiset(InCategories(records, {category} + cats))
         == multiset(GroupMembers(records, category)) + multiset(InCategories(records, cats))
  {
    if records != [] {
      SplitCategory(records[1..], category, cats);
    }
  }

  /** Selecting every category that occurs selects every record. */
  lemma {:induction false} InAllCategories(records: seq<SocialMedia>, cats: set<string>)
    requires Categories(records) <= cats
    ensures InCategories(records, cats) == records
  {
    if records != [] {
      CategoriesCons(records);
      InAllCategories(records[1..], cats);
      assert records == [records[0]] + records[1..];
    }
  }

  /** Rebuilding with a non-empty order: the first section, then the rest. */
  lemma RebuiltCons(records: seq<SocialMedia>, order: seq<string>)
    requires order != []
    ensures Rebuilt(records, order)
         == [SocialMediaGrouped(false, order[0], GroupMembers(records, order[0]))] + Rebuilt(records, order[1..])
  {
  }

  /** Rebuilding with one more category of the order appends its section. */
  lemma RebuiltSnoc(records: seq<SocialMedia>, order: seq<string>, i: int)
    requires 0 <= i < |order|
    ensures Rebuilt(records, order[..i + 1])
         == Rebuilt(records, order[..i]) + [SocialMediaGrouped(false, order[i], GroupMembers(records, order[i]))]
  {
    var longer, shorter := Rebuilt(records, order[..i + 1]), Rebuilt(records, order[..i]);
    forall k | 0 <= k < i ensures longer[k] == shorter[k] {
      assert order[..i + 1][k] == order[..i][k];
    }
  }

  /** Distinctness and elements of the tail of a distinct sequence. */
  lemma DistinctTail(order: seq<string>)
    requires order != [] && Distinct(order)
    ensures Distinct(order[1..])
    ensures order[0] !in Elements(order[1..])
    ensures Elements(order) == {order[0]} + Elements(order[1..])
  {
    assert order == [order[0]] + order[1..];
    forall k | 0 <= k < |order[1..]| ensures order[1..][k] != order[0] {
      assert order[1..][k] == order[k + 1];
    }
  }

  /** The sections built for a distinct order hold exactly the records of its categories. */
  lemma {:induction false} FlattenRebuilt(records: seq<SocialMedia>, order: seq<string>)
    requires Distinct(order)
    ensures multiset(Flatten(Rebuilt(records, order))) == multiset(InCategories(records, Elements(order)))
  {
    if order == [] {
      assert Elements(order) == {};
      AbsentFromNone(records);
    } else {
      RebuiltCons(records, order);
      DistinctTail(order);
      FlattenRebuilt(records, order[1..]);
      SplitCategory(records, order[0], Elements(order[1..]));
    }
  }

  /** Selecting no category selects nothing. */
  lemma {:induction false} AbsentFromNone(records: seq<SocialMedia>)
    ensures InCategories(records, {}) == []
  {
    if records != [] { AbsentFromNone(records[1..]); }
  }

  /**
   * Rebuild is a partition: all members of all sections, taken together, are
   * the input records, each exactly as often as in the input.
   */
  lemma RebuildIsPermutation(records: seq<SocialMedia>, order: seq<string>)
    requires IsIterationOrder(order, Categories(records))
    ensures multiset(Flatten(Rebuilt(records, order))) == multiset(records)
    ensures |Flatten(Rebuilt(records, order))| == |records|
  {
    FlattenRebuilt(records, order);
    InAllCategories(records, Elements(order));
    assert |multiset(Flatten(Rebuilt(records, order)))| == |multiset(records)|;
  }

  /**
   * Rebuild makes one section per distinct category: as many sections as
   * categories, no category twice, and every category present.
   */
  lemma RebuildOneSectionPerCategory(records: seq<SocialMedia>, order: seq<string>)
    requires IsIterationOrder(order, Categories(records))
    ensures |Rebuilt(records, order)| == |Categories(records)|
    ensures forall k, l :: 0 <= k < l < |Rebuilt(records, order)|
              ==> Rebuilt(records, order)[k].cattegoryName != Rebuilt(records, order)[l].cattegoryName
    ensures forall c :: c in Categories(records)
              <==> exists k :: 0 <= k < |Rebuilt(records, order)| && Rebuilt(records, order)[k].cattegoryName == c
  {
    DistinctCardinality(order);
    var groups := Rebuilt(records, order);
    forall c ensures c in Categories(records) <==> exists k :: 0 <= k < |groups| && groups[k].cattegoryName == c {
      if c in Categories(records) {
        assert c in Elements(order);
        var k :| 0 <= k < |order| && order[k] == c;
        assert groups[k].cattegoryName == c;
      }
    }
  }

  /**
   * Every rebuilt section starts expanded, is non-empty, and holds only
   * records of its own category.
   */
  lemma RebuildSectionsExpandedAndHomogeneous(records: seq<SocialMedia>, order: seq<string>)
    requires IsIterationOrder(order, Categories(records))
    ensures forall k :: 0 <= k < |Rebuilt(records, order)| ==> !Rebuilt(records, order)[k].isColapsed
    ensures forall k :: 0 <= k < |Rebuilt(records, order)| ==> Rebuilt(records, order)[k].socialMedia != []
    ensures forall k, x :: 0 <= k < |Rebuilt(records, order)| && x in Rebuilt(records, order)[k].socialMedia
              ==> x.socialType == Rebuilt(records, order)[k].cattegoryName
  {
    forall k | 0 <= k < |order| ensures GroupMembers(records, order[k]) != [] {
      assert order[k] in Elements(order);
      PresentCategoryIsNonEmpty(records, order[k]);
    }
  }

  /**
   * Within each rebuilt section the records keep their input order, and the
   * section holds every input record of its category.
   */
  lemma RebuildMembersInInputOrder(records: seq<SocialMedia>, order: seq<string>)
    ensures forall k :: 0 <= k < |Rebuilt(records, order)| ==> IsSubsequence(Rebuilt(records, order)[k].socialMedia, records)
    ensures forall k, x: SocialMedia :: 0 <= k < |Rebuilt(records, order)| && x.socialType == Rebuilt(records, order)[k].cattegoryName
              ==> multiset(Rebuilt(records, order)[k].socialMedia)[x] == multiset(records)[x]
  {
    forall k | 0 <= k < |order| ensures IsSubsequence(GroupMembers(records, order[k]), records) {
      GroupMembersKeepsOrder(records, order[k]);
    }
    forall k, x: SocialMedia | 0 <= k < |order| && x.socialType == order[k]
      ensures multiset(GroupMembers(records, order[k]))[x] == multiset(records)[x]
    {
      GroupMembersCount(records, order[k], x);
    }
  }

  /** Grouping the flattened sections by one category gives back that category's group. */
  lemma {:induction false} GroupMembersOfFlatten(records: seq<SocialMedia>, order: seq<string>, category: string)
    requires Distinct(order)
    ensures GroupMembers(Flatten(Rebuilt(records, order)), category)
         == if category in order then GroupMembers(records, category) else []
  {
    if order != [] {
      var first := GroupMembers(records, order[0]);
      var rest := Rebuilt(records, order[1..]);
      RebuiltCons(records, order);
      assert Flatten(Rebuilt(records, order)) == first + Flatten(rest);
      DistinctTail(order);
      GroupMembersOfFlatten(records, order[1..], category);
      GroupMembersAppend(first, Flatten(rest), category);
      GroupMembersOfGroup(records, order[0], category);
      assert order == [order[0]] + order[1..];
      assert category in order <==> category == order[0] || category in Elements(order[1..]);
    }
  }

  /**
   * Flattening the sections and rebuilding, in any dictionary order, gives
   * the sections a rebuild of the original records gives in that order: the
   * partition is idempotent.
   */
  lemma RegroupIsIdempotent(records: seq<SocialMedia>, order: seq<string>, order2: seq<string>)
    requires IsIterationOrder(order, Categories(records))
    requires IsIterationOrder(order2, Categories(records))
    ensures IsIterationOrder(order2, Categories(Flatten(Rebuilt(records, order))))
    ensures Rebuilt(Flatten(Rebuilt(records, order)), order2) == Rebuilt(records, order2)
  {
    var flat := Flatten(Rebuilt(records, order));
    RebuildIsPermutation(records, order);
    assert forall x :: x in flat <==> x in records by {
      forall x ensures x in flat <==> x in records {
        assert x in flat <==> x in multiset(flat);
        assert x in records <==> x in multiset(records);
      }
    }
    assert Categories(flat) == Categories(records);
    forall k | 0 <= k < |order2| ensures GroupMembers(flat, order2[k]) == GroupMembers(records, order2[k]) {
      assert order2[k] in Elements(order2);
      assert order2[k] in Elements(order);
      GroupMembersOfFlatten(records, order, order2[k]);
    }
  }

  /** Section `id` with its collapse flag flipped (`isColapsed.toggle()`). */
  function Toggled(groups: seq<SocialMediaGrouped>, id: int): seq<SocialMediaGrouped>
    requires 0 <= id < |groups|
  {
    groups[id := groups[id].(isColapsed := !groups[id].isColapsed)]
  }

  /**
   * Toggling flips the flag of section `id` only: no section is added or
   * removed, no category or member list changes, every other section is kept.
   */
  lemma ToggleFlipsOnlyOneFlag(groups: seq<SocialMediaGrouped>, id: int)
    requires 0 <= id < |groups|
    ensures |Toggled(groups, id)| == |groups|
    ensures Toggled(groups, id)[id].isColapsed == !groups[id].isColapsed
    ensures forall k :: 0 <= k < |groups| ==>
              Toggled(groups, id)[k].cattegoryName == groups[k].cattegoryName
              && Toggled(groups, id)[k].socialMedia == groups[k].socialMedia
    ensures forall k :: 0 <= k < |groups| && k != id ==> Toggled(groups, id)[k] == groups[k]
    ensures Flatten(Toggled(groups, id)) == Flatten(groups)
  {
    FlattenIgnoresFlags(Toggled(groups, id), groups);
  }

  /** Flatten only looks at member lists. */
  lemma {:induction false} FlattenIgnoresFlags(a: seq<SocialMediaGrouped>, b: seq<SocialMediaGrouped>)
    requires |a| == |b|
    requires forall k :: 0 <= k < |a| ==> a[k].socialMedia == b[k].socialMedia
    ensures Flatten(a) == Flatten(b)
  {
    if a != [] {
      FlattenIgnoresFlags(a[1..], b[1..]);
    }
  }

  /** Toggling the same section twice restores the starting sections. */
  lemma ToggleTwiceRestores(groups: seq<SocialMediaGrouped>, id: int)
    requires 0 <= id < |groups|
    ensures Toggled(Toggled(groups, id), id) == groups
  {
  }
}
