/**
 * Filter groups and selections (src/types.ts), the chip logic the two filter
 * components share, and the static filter set (src/data/staticFilters.ts).
 */
module Filters {
  import opened Wrappers

  datatype FilterOption = FilterOption(id: string, caption: string)

  datatype FilterGroup = FilterGroup(key: string, caption: string, options: seq<FilterOption>)

  /** `Record<string, string | null>`: an absent key reads as `undefined`, `None` is `null`. */
  type Selection = map<string, Option<string>>

  /** `selection[key] ?? null` */
  function Selected(sel: Selection, key: string): Option<string> {
    if key in sel then sel[key] else None
  }

  /** The chips of one group: "All", then one per option. */
  datatype Chip = AllChip | OptionChip(id: string)

  /** Whether a chip renders as selected for the group's current value. */
  predicate ChipSelected(selected: Option<string>, chip: Chip) {
    match chip
    case AllChip => selected.None?
    case OptionChip(id) => selected == Some(id)
  }

  /** The group value a tap on `chip` asks for. */
  function TapValue(selected: Option<string>, chip: Chip): Option<string> {
    match chip
    case AllChip => None
    case OptionChip(id) => if selected == Some(id) then None else Some(id)
  }

  /**
   * "All" clears the group; an option chip selects its option unless it was
   * already selected, in which case it clears the group. So a tap on an option
   * leaves it selected exactly when it was not selected before, and a second tap
   * undoes a first one that selected it.
   */
  lemma TapSpec(selected: Option<string>, chip: Chip)
    ensures chip == AllChip ==> TapValue(selected, chip) == None && ChipSelected(TapValue(selected, chip), AllChip)
    ensures chip.OptionChip? ==> (ChipSelected(TapValue(selected, chip), chip) <==> !ChipSelected(selected, chip))
    ensures chip.OptionChip? && ChipSelected(selected, chip) ==> TapValue(selected, chip) == None
    ensures chip.OptionChip? && !ChipSelected(selected, chip) ==> TapValue(TapValue(selected, chip), chip) == None
  {
  }

  predicate DistinctIds(opts: seq<FilterOption>) {
    forall i, j :: 0 <= i < j < |opts| ==> opts[i].id != opts[j].id
  }

  /**
   * "All" is selected exactly when the value is `null`, and then no option is;
   * when the option ids are distinct at most one option chip is selected.
   */
  lemma AtMostOneChipSelected(selected: Option<string>, opts: seq<FilterOption>, i: int, j: int)
    requires DistinctIds(opts) && 0 <= i < |opts| && 0 <= j < |opts|
    requires ChipSelected(selected, OptionChip(opts[i].id)) && ChipSelected(selected, OptionChip(opts[j].id))
    ensures i == j && !ChipSelected(selected, AllChip)
  {
  }

  // ---------------------------------------------------------------- the static filter set

  const GenderGroup: FilterGroup :=
    FilterGroup("gender", "Gender", [
      FilterOption("Men", "Men"), FilterOption("Women", "Women")
    ])
  const MasterCategoryGroup: FilterGroup :=
    FilterGroup("masterCategory", "Master Category", [
      FilterOption("Apparel", "Apparel"), FilterOption("Accessories", "Accessories"),
      FilterOption("Footwear", "Footwear"), FilterOption("Personal Care", "Personal Care")
    ])
  const SubCategoryGroup: FilterGroup :=
    FilterGroup("subCategory", "Subcategory", [
      FilterOption("Topwear", "Topwear"), FilterOption("Bottomwear", "Bottomwear"),
      FilterOption("Socks", "Socks"), FilterOption("Watches", "Watches"),
      FilterOption("Fragrance", "Fragrance"), FilterOption("Nails", "Nails"),
      FilterOption("Flip Flops", "Flip Flops"), FilterOption("Shoes", "Shoes"),
      FilterOption("Jewellery", "Jewellery")
    ])
  const ArticleTypeGroup: FilterGroup :=
    FilterGroup("articleType", "Article Type", [
      FilterOption("Shirts", "Shirts"), FilterOption("Track Pants", "Track Pants"),
      FilterOption("Tshirts", "Tshirts"), FilterOption("Socks", "Socks"), FilterOption("Watches", "Watches"),
      FilterOption("Flip Flops", "Flip Flops"), FilterOption("Casual Shoes", "Casual Shoes"),
      FilterOption("Deodorant", "Deodorant"), FilterOption("Bracelet", "Bracelet"),
      FilterOption("Nail Polish", "Nail Polish")
    ])
  const ColorGroup: FilterGroup :=
    FilterGroup("color", "Color", [
      FilterOption("Navy Blue", "Navy Blue"), FilterOption("Silver", "Silver"),
      FilterOption("Black", "Black"), FilterOption("Grey", "Grey"), FilterOption("Bronze", "Bronze"),
      FilterOption("White", "White")
    ])
  const SeasonGroup: FilterGroup :=
    FilterGroup("season", "Season", [
      FilterOption("Fall", "Fall"), FilterOption("Winter", "Winter"), FilterOption("Summer", "Summer"),
      FilterOption("Spring", "Spring")
    ])
  const YearGroup: FilterGroup :=
    FilterGroup("year", "Year", [
      FilterOption("2011", "2011"), FilterOption("2012", "2012"), FilterOption("2016", "2016"),
      FilterOption("2017", "2017")
    ])
  const UsageGroup: FilterGroup :=
    FilterGroup("usage", "Usage", [
      FilterOption("Casual", "Casual"), FilterOption("Sports", "Sports"), FilterOption("NA", "NA")
    ])

  /** `getStaticFilters().groups`, in order. */
  const StaticGroups: seq<FilterGroup> :=
    [GenderGroup, MasterCategoryGroup, SubCategoryGroup, ArticleTypeGroup, ColorGroup, SeasonGroup, YearGroup, UsageGroup]

  /** The group keys of the static set, in order. */
  function Keys(gs: seq<FilterGroup>): (r: seq<string>)
    ensures |r| == |gs| && forall i :: 0 <= i < |gs| ==> r[i] == gs[i].key
  {
    if gs == [] then [] else [gs[0].key] + Keys(gs[1..])
  }

  predicate SelfLabelled(opts: seq<FilterOption>) {
    forall k :: 0 <= k < |opts| ==> opts[k].id == opts[k].caption
  }

  /** The static group keys, in order. */
  lemma StaticGroupKeys()
    ensures Keys(StaticGroups) == ["gender", "masterCategory", "subCategory", "articleType", "color", "season", "year", "usage"]
  {
  }

  /** In the static set every option's id is its caption. */
  lemma StaticOptionsSelfLabelled()
    ensures forall i :: 0 <= i < |StaticGroups| ==> SelfLabelled(StaticGroups[i].options)
  {
  }
}
