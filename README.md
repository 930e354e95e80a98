# Collapsible grouped list of social-media entries — a Dafny model

This project models the state behind the list screen of the ColapsedTableView
app: `MyViewController` keeps the full list of a contact's social-media
entries (`socialMedia`) and the sections the table shows (`socialMediaByGroup`).
A rebuild partitions a record list by `socialType` into one expanded section
per category. Typing in the search bar rebuilds from the records whose name
starts with the search text. Cancelling the search rebuilds from the whole
list. Tapping a section header flips that section's collapse flag, and the
table's section and row counts are read off the sections.

Files and modules:

- `records.dfy` (`Records`): the `SocialMedia` record and the
  `SocialMediaGrouped` section (field names spelled as in the original,
  `isColapsed` and `cattegoryName` included), plus sequence helpers
  (subsequence, distinctness).
- `search.dfy` (`Search`): the search filter, `hasPrefix` as sequence prefix.
- `grouping.dfy` (`Grouping`): `Dictionary(grouping:by:)` as a function that
  builds the dictionary record by record, the sections a rebuild produces
  (`Rebuilt`), the collapse toggle on sections (`Toggled`), and the partition
  lemmas.
- `controller.dfy` (`Controller`): the class `MyViewController` with the two
  fields as `seq` fields, the state-changing operations as methods whose
  postconditions give the new sections as `Rebuilt`/`Toggled` of the inputs
  and old state, the two table callbacks as functions, and lemmas about the
  counts.

Dictionary iteration order. Swift does not specify the order in which a
`Dictionary` hands out its entries, so the order of the sections built at
`ViewController.swift:199-200` is not fixed. Every rebuilding method takes
that order as a parameter `order`. Its precondition `IsIterationOrder(order, Categories(records))`
says only that `order` lists every category of the records exactly once.
`IterationOrderExists` proves such an order exists for every input, so the
precondition never excludes a record list. The lemmas about rebuilds hold for
every such order.

Sections come in the dictionary's iteration order, not in first-encounter
order of categories. The controller stores no search term; the text only
passes through `searchBar(_:textDidChange:)`.

## Model

| member | source | states |
|---|---|---|
| `Search.FilterByNamePrefix` | TableViewsWithColapse/ViewController.swift:246-248 | every record kept comes from the full list and has a name starting with the search text; the result is no longer than the list |
| `Search.FilterKeepsExactlyMatching` | TableViewsWithColapse/ViewController.swift:246-248 | each matching record is kept exactly as often as the full list holds it, each non-matching one is dropped |
| `Search.FilterKeepsOrder` | TableViewsWithColapse/ViewController.swift:246-248 | the filtered records are a subsequence of the full list: original relative order kept |
| `Search.EmptySearchKeepsAll` | TableViewsWithColapse/ViewController.swift:246-248 | empty search text keeps the whole list unchanged |
| `Grouping.GroupMembers` | TableViewsWithColapse/ViewController.swift:198 | every member of a category's group is an input record of that category |
| `Grouping.GroupMembersKeepsOrder` | TableViewsWithColapse/ViewController.swift:198 | a category's group lists its records in input order |
| `Grouping.GroupMembersCount` | TableViewsWithColapse/ViewController.swift:198 | a category's group holds each input record of that category as often as the input, and nothing else |
| `Grouping.GroupingBySocialType` | TableViewsWithColapse/ViewController.swift:198 | the grouping dictionary, built record by record, has exactly the categories of the input as keys, and under each key that category's records in input order |
| `Grouping.IterationOrderExists` | TableViewsWithColapse/ViewController.swift:199 | every set of dictionary keys has an iteration order listing each key once |
| `Grouping.RebuildOneSectionPerCategory` | TableViewsWithColapse/ViewController.swift:198-200 | a rebuild makes as many sections as distinct categories, no category twice, every category present |
| `Grouping.RebuildSectionsExpandedAndHomogeneous` | TableViewsWithColapse/ViewController.swift:171-173 | every rebuilt section starts expanded, is non-empty and holds only records of its own category |
| `Grouping.RebuildMembersInInputOrder` | TableViewsWithColapse/ViewController.swift:198-200 | each rebuilt section is a subsequence of the input and holds every input record of its category as often as the input does |
| `Grouping.RebuildIsPermutation` | TableViewsWithColapse/ViewController.swift:198-200 | all sections' members together are a permutation of the input records |
| `Grouping.RegroupIsIdempotent` | TableViewsWithColapse/ViewController.swift:196-201 | rebuilding from the flattened sections, in any dictionary order, gives the same sections as rebuilding the original records in that order |
| `Grouping.ToggleFlipsOnlyOneFlag` | TableViewsWithColapse/ViewController.swift:206-207 | a toggle negates the flag of the chosen section only; section count, categories, member lists and all other sections stay the same |
| `Grouping.ToggleTwiceRestores` | TableViewsWithColapse/ViewController.swift:206-207 | toggling the same section twice restores the starting sections |
| `Controller.MyViewController.constructor` | TableViewsWithColapse/ViewController.swift:178-179 | both lists start empty |
| `Controller.MyViewController.LoadData` | TableViewsWithColapse/ViewController.swift:192-193 | the full list becomes the given records and the sections are rebuilt from all of them |
| `Controller.MyViewController.PrepareReturnedData` | TableViewsWithColapse/ViewController.swift:196-201 | the previous sections are discarded; the new ones are exactly one fresh expanded section per category, in the dictionary's order, with that category's records; the full list is not changed |
| `Controller.MyViewController.ShowHideSection` | TableViewsWithColapse/ViewController.swift:206-207 | requires an index in range (the array subscript traps otherwise); the new sections are the old ones with that one flag flipped |
| `Controller.MyViewController.SearchBarTextDidChange` | TableViewsWithColapse/ViewController.swift:245-251 | the sections are rebuilt from the filtered full list; the full list itself is unchanged |
| `Controller.MyViewController.SearchBarCancelButtonClicked` | TableViewsWithColapse/ViewController.swift:253-255 | the sections are rebuilt from the whole unfiltered list; the full list is unchanged |
| `Controller.MyViewController.NumberOfSections` | TableViewsWithColapse/ViewController.swift:228-230 | the section count is the number of sections |
| `Controller.MyViewController.NumberOfRowsInSection` | TableViewsWithColapse/ViewController.swift:232-234 | requires an index in range; 0 rows for a collapsed section, otherwise its member count |
| `Controller.CountsAfterRebuild` | TableViewsWithColapse/ViewController.swift:228-234 | after a rebuild the section count is the number of distinct categories, each section's row count is its category's record count and positive, and the sections' member lists together are as long as the input |
| `Controller.CountsAfterToggle` | TableViewsWithColapse/ViewController.swift:228-234 | after a toggle the section count is unchanged, the toggled section shows 0 rows if it was expanded and all its members if it was collapsed, other sections show 0 when collapsed and their member count otherwise |
| `Controller.EmptySearchIsCancel` | TableViewsWithColapse/ViewController.swift:245-255 | searching for empty text gives the same sections as cancelling the search |
| `Controller.SearchCategoriesAreKnown` | TableViewsWithColapse/ViewController.swift:246-250 | a search brings in no category the full list lacks |
| `Controller.FixtureSearchTw` | TableViewsWithColapse/ViewController.swift:158-167 | on the sample records, searching "Tw" yields the single expanded section "social" holding Twitter |

## Left out

- Dictionary iteration order: not modelled; it is a parameter of every rebuild, constrained only to list each category once.
- `String.hasPrefix` and `String ==` work on Unicode grapheme clusters with canonical equivalence; the model compares sequences of characters, both for the search prefix and for the `socialType` keys of the grouping dictionary (line 198).
- `customView?.tableView.reloadData()` (lines 203 and 208): a rendering side effect; no state of the core depends on it.
- `loadView` and the rest of `viewDidLoad` (view creation, background colour): UI set-up. The fixture is passed to `LoadData` as its records.
- Header view construction and arrow image choice (lines 216-226), `heightForHeaderInSection` (a constant height), `cellForRowAt`: UIKit rendering.
- The tap forwarding in `ThatsMeSocialMediasHeaderView.swift` and that whole file: button, label and image layout.
- `YViewCodeConfigurator`, `YCodedView`, `YCodeView`, `MyView`, `ViewController`: view hierarchy, Auto Layout and navigation.
- `UIImage.rotate` and `UIView.addShadow`: floating-point drawing and layer styling.
