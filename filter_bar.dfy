/**
 * The inline filter bar (src/components/FilterBar.tsx). It holds no state: it
 * renders the parent's selection and emits a new selection on every tap.
 */
module FilterBar {
  import opened Wrappers
  import opened Filters

  /** `value ?? {}` */
  function SafeSelection(value: Option<Selection>): Selection {
    value.GetOr(map[])
  }

  /** `Array.isArray(groups) ? groups : []`, with a missing list as `None`. */
  function SafeGroups(groups: Option<seq<FilterGroup>>): seq<FilterGroup> {
    groups.GetOr([])
  }

  /** `setGroup(groupKey, newVal)`: the selection it emits, `{ ...selection, [groupKey]: newVal }`. */
  function SetGroup(value: Option<Selection>, groupKey: string, newVal: Option<string>): Selection {
    SafeSelection(value)[groupKey := newVal]
  }

  /** The selection emitted when a chip of group `g` is tapped. */
  function Press(value: Option<Selection>, g: FilterGroup, chip: Chip): Selection {
    SetGroup(value, g.key, TapValue(Selected(SafeSelection(value), g.key), chip))
  }

  /** The emitted selection differs from the current one in `groupKey` only. */
  lemma SetGroupChangesOnlyKey(value: Option<Selection>, groupKey: string, newVal: Option<string>)
    ensures var r := SetGroup(value, groupKey, newVal);
            && groupKey in r && r[groupKey] == newVal
            && (forall k :: k != groupKey ==> (k in r <==> k in SafeSelection(value)))
            && (forall k :: k != groupKey && k in r ==> r[k] == SafeSelection(value)[k])
  {
  }

  /** A missing selection or a missing key reads as `null`, so "All" is the selected chip. */
  lemma MissingKeySelectsAll(value: Option<Selection>, key: string)
    requires value.None? || key !in value.value
    ensures Selected(SafeSelection(value), key) == None
    ensures ChipSelected(Selected(SafeSelection(value), key), AllChip)
  {
  }

  /**
   * Tapping the selected option emits `null` for the group; tapping any other
   * option emits its id; tapping "All" emits `null`.
   */
  lemma PressSpec(value: Option<Selection>, g: FilterGroup, id: string)
    ensures var current := Selected(SafeSelection(value), g.key);
            && (current == Some(id) ==> Press(value, g, OptionChip(id))[g.key] == None)
            && (current != Some(id) ==> Press(value, g, OptionChip(id))[g.key] == Some(id))
            && Press(value, g, AllChip)[g.key] == None
  {
  }
}
