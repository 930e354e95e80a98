/**
 * The state of the list screen (MyViewController): the full record list, the
 * sections shown, and the operations and table callbacks that read or
 * rebuild them.
 */
module Controller {
  import opened Records
  import opened Search
  import opened Grouping

  class MyViewController {
    /** The sections currently shown, in the order the table draws them. */
    var socialMediaByGroup: seq<SocialMediaGrouped>
    /** The full, unfiltered record list. */
    var socialMedia: seq<SocialMedia>

    /** Both lists start empty. */
    constructor ()
      ensures socialMediaByGroup == [] && socialMedia == []
    {
      socialMediaByGroup := [];
      socialMedia := [];
    }

    /**
     * The data part of `viewDidLoad`: store the records (the fixture in the
     * original) and build the sections from all of them.
     */
    method LoadData(records: seq<SocialMedia>, order: seq<string>)
      requires IsIterationOrder(order, Categories(records))
      modifies this
      ensures socialMedia == records
      ensures socialMediaByGroup == Rebuilt(records, order)
    {
      socialMedia := records;
      PrepareReturnedData(socialMedia, order);
    }

    /**
     * Discard the current sections and build one expanded section per
     * category of `bySocialMedias`; `order` is the order in which the
     * grouping dictionary hands out its entries.
     */
    method PrepareReturnedData(bySocialMedias: seq<SocialMedia>, order: seq<string>)
      requires IsIterationOrder(order, Categories(bySocialMedias))
      modifies this`socialMediaByGroup
      ensures socialMediaByGroup == Rebuilt(bySocialMedias, order)
    {
      socialMediaByGroup := [];
      var dictResult := GroupingBySocialType(bySocialMedias);
      var i := 0;
      while i < |order|
        invariant 0 <= i <= |order|
        invariant socialMediaByGroup == Rebuilt(bySocialMedias, order[..i])
      {
        var category := order[i];
        assert category in Elements(order);
        RebuiltSnoc(bySocialMedias, order, i);
        socialMediaByGroup := socialMediaByGroup + [SocialMediaGrouped(false, category, dictResult[category])];
        i := i + 1;
      }
      assert order[..i] == order;
    }

    /** Flip the collapse flag of section `id`; the index must be in range. */
    method ShowHideSection(id: int)
      requires 0 <= id < |socialMediaByGroup|
      modifies this`socialMediaByGroup
      ensures socialMediaByGroup == Toggled(old(socialMediaByGroup), id)
    {
      socialMediaByGroup := socialMediaByGroup[id := socialMediaByGroup[id].(isColapsed := !socialMediaByGroup[id].isColapsed)];
    }

    /** Table callback: one table section per group. */
    function NumberOfSections(): (n: nat)
      reads this
      ensures n == |socialMediaByGroup|
    {
      |socialMediaByGroup|
    }

    /** Table callback: a collapsed section shows no rows, an expanded one a row per member. */
    function NumberOfRowsInSection(section: int): (rows: nat)
      reads this
      requires 0 <= section < |socialMediaByGroup|
      ensures socialMediaByGroup[section].isColapsed ==> rows == 0
      ensures !socialMediaByGroup[section].isColapsed ==> rows == |socialMediaByGroup[section].socialMedia|
    {
      if socialMediaByGroup[section].isColapsed then 0 else |socialMediaByGroup[section].socialMedia|
    }

    /**
     * Search text changed: rebuild from the records of the full list whose
     * name starts with `searchText`; the full list itself is kept.
     */
    method SearchBarTextDidChange(searchText: string, order: seq<string>)
      requires IsIterationOrder(order, Categories(FilterByNamePrefix(socialMedia, searchText)))
      modifies this`socialMediaByGroup
      ensures socialMedia == old(socialMedia)
      ensures socialMediaByGroup == Rebuilt(FilterByNamePrefix(socialMedia, searchText), order)
    {
      var result := FilterByNamePrefix(socialMedia, searchText);
      PrepareReturnedData(result, order);
    }

    /** Search cancelled: rebuild from the whole unfiltered list. */
    method SearchBarCancelButtonClicked(order: seq<string>)
      requires IsIterationOrder(order, Categories(socialMedia))
      modifies this`socialMediaByGroup
      ensures socialMedia == old(socialMedia)
      ensures socialMediaByGroup == Rebuilt(socialMedia, order)
    {
      PrepareReturnedData(socialMedia, order);
    }
  }

  /**
   * After a rebuild the table shows one section per category, every section
   * expanded with a row per member, and one row per input record in all.
   */
  lemma CountsAfterRebuild(vc: MyViewController, records: seq<SocialMedia>, order: seq<string>)
    requires IsIterationOrder(order, Categories(records))
    requires vc.socialMediaByGroup == Rebuilt(records, order)
    ensures vc.NumberOfSections() == |Categories(records)|
    ensures forall s :: 0 <= s < vc.NumberOfSections() ==>
              vc.NumberOfRowsInSection(s) == |GroupMembers(records, vc.socialMediaByGroup[s].cattegoryName)| > 0
    ensures |Flatten(vc.socialMediaByGroup)| == |records|
  {
    RebuildOneSectionPerCategory(records, order);
    RebuildSectionsExpandedAndHomogeneous(records, order);
    RebuildIsPermutation(records, order);
  }

  /**
   * Toggling section `id` hides its rows when it was expanded and shows all
   * of them when it was collapsed; the section count and every other
   * section's rows are unchanged.
   */
  lemma CountsAfterToggle(vc: MyViewController, before: seq<SocialMediaGrouped>, id: int)
    requires 0 <= id < |before|
    requires vc.socialMediaByGroup == Toggled(before, id)
    ensures vc.NumberOfSections() == |before|
    ensures vc.NumberOfRowsInSection(id) == if before[id].isColapsed then |before[id].socialMedia| else 0
    ensures forall s :: 0 <= s < |before| && s != id ==> vc.NumberOfRowsInSection(s) == if before[s].isColapsed then 0 else |before[s].socialMedia|
  {
  }

  /** Searching for the empty text shows the same sections as cancelling the search. */
  lemma EmptySearchIsCancel(records: seq<SocialMedia>, order: seq<string>)
    ensures Rebuilt(FilterByNamePrefix(records, ""), order) == Rebuilt(records, order)
  {
    EmptySearchKeepsAll(records);
  }

  /** A search never brings in a category the full list does not have. */
  lemma SearchCategoriesAreKnown(records: seq<SocialMedia>, searchText: string)
    ensures Categories(FilterByNamePrefix(records, searchText)) <= Categories(records)
  {
  }

  /** The sample records the screen loads (ReturnedData.fixture()). */
  function Fixture(): seq<SocialMedia> {
    [ SocialMedia("1", "Facebook", "social", ""),
      SocialMedia("2", "Twitter", "social", ""),
      SocialMedia("3", "Telegram", "social_chat", ""),
      SocialMedia("3.5", "Phone Whats", "social_chat", ""),
      SocialMedia("4", "Phone", "phone", "tel://32119999966666"),
      SocialMedia("5", "Phone 2", "phone", "tel://32119999966666") ]
  }

  /**
   * On the sample records, searching for "Tw" leaves a single section,
   * "social", holding Twitter only, and expanded.
   */
  lemma FixtureSearchTw()
    ensures FilterByNamePrefix(Fixture(), "Tw") == [Fixture()[1]]
    ensures IsIterationOrder(["social"], Categories(FilterByNamePrefix(Fixture(), "Tw")))
    ensures Rebuilt(FilterByNamePrefix(Fixture(), "Tw"), ["social"])
         == [SocialMediaGrouped(false, "social", [Fixture()[1]])]
  {
    var f := Fixture();
    var t: string := "Tw";
    assert !HasPrefix(f[0].name, t) && !HasPrefix(f[2].name, t) && !HasPrefix(f[3].name, t)
        && !HasPrefix(f[4].name, t) && !HasPrefix(f[5].name, t) by {
      assert f[0].name[0] == 'F' && f[2].name[1] == 'e' && f[3].name[0] == 'P'
          && f[4].name[0] == 'P' && f[5].name[0] == 'P';
    }
    assert HasPrefix(f[1].name, t);
    assert FilterByNamePrefix(f[5..], t) == [] by { assert f[5..][1..] == []; }
    assert FilterByNamePrefix(f[4..], t) == [] by { assert f[4..][1..] == f[5..]; }
    assert FilterByNamePrefix(f[3..], t) == [] by { assert f[3..][1..] == f[4..]; }
    assert FilterByNamePrefix(f[2..], t) == [] by { assert f[2..][1..] == f[3..]; }
    assert FilterByNamePrefix(f[1..], t) == [f[1]] by { assert f[1..][1..] == f[2..]; }
    assert FilterByNamePrefix(f, t) == [f[1]];
    var r := [f[1]];
    assert Categories(r) == {"social"} by { assert r[0] in r; }
    assert Elements(["social"]) == {"social"};
    assert GroupMembers(r, "social") == r;
  }
}
