/**
 * The filter popup (src/components/FilterControls.tsx): which groups it shows,
 * the count and summary of the committed selection, and the local draft that
 * only reaches the parent through Apply or Reset.
 */
module FilterControls {
  import opened Wrappers
  import opened Js
  import opened Filters

  /** The only group keys the popup shows. */
  const AllowedKeys: set<string> := {"gender", "masterCategory", "subCategory", "color"}

  /** The keys the summary walks, in this order. */
  const SummaryKeys: seq<string> := ["gender", "masterCategory", "subCategory", "color"]

  const SummarySeparator: string := " \U{2022} "

  // ---------------------------------------------------------------- shown groups

  /** `groups.filter(g => ALLOWED_KEYS.has(g.key))` */
  function ShownGroups(gs: seq<FilterGroup>): (r: seq<FilterGroup>)
    ensures |r| <= |gs|
    ensures forall i :: 0 <= i < |r| ==> r[i].key in AllowedKeys
  {
    if gs == [] then []
    else if gs[0].key in AllowedKeys then [gs[0]] + ShownGroups(gs[1..])
    else ShownGroups(gs[1..])
  }

  /** A group is shown exactly when it is in the input and its key is allowed. */
  lemma {:induction false} ShownGroupsMembers(gs: seq<FilterGroup>)
    ensures forall g :: g in ShownGroups(gs) <==> g in gs && g.key in AllowedKeys
    decreases |gs|
  {
    if gs != [] {
      ShownGroupsMembers(gs[1..]);
      assert forall g :: g in gs <==> g == gs[0] || g in gs[1..];
    }
  }

  /** The filter keeps the input order: it distributes over concatenation. */
  lemma {:induction false} ShownGroupsAppend(a: seq<FilterGroup>, b: seq<FilterGroup>)
    ensures ShownGroups(a + b) == ShownGroups(a) + ShownGroups(b)
    decreases |a|
  {
    if a == [] {
      assert a + b == b;
    } else {
      assert (a + b)[1..] == a[1..] + b;
      ShownGroupsAppend(a[1..], b);
    }
  }

  /** `safeGroups`: a missing (non-array) list shows nothing. */
  function SafeGroups(groups: Option<seq<FilterGroup>>): seq<FilterGroup> {
    if groups.Some? then ShownGroups(groups.value) else []
  }

  lemma ShownOfEight(a: FilterGroup, b: FilterGroup, c: FilterGroup, d: FilterGroup,
                     e: FilterGroup, f: FilterGroup, g: FilterGroup, h: FilterGroup)
    requires a.key in AllowedKeys && b.key in AllowedKeys && c.key in AllowedKeys && e.key in AllowedKeys
    requires d.key !in AllowedKeys && f.key !in AllowedKeys && g.key !in AllowedKeys && h.key !in AllowedKeys
    ensures ShownGroups([a, b, c, d, e, f, g, h]) == [a, b, c, e]
  {
    var s := [a, b, c, d, e, f, g, h];
    assert ShownGroups(s[7..]) == [];
    assert ShownGroups(s[6..]) == [];
    assert ShownGroups(s[5..]) == [];
    assert ShownGroups(s[4..]) == [e];
    assert ShownGroups(s[3..]) == [e];
    assert ShownGroups(s[2..]) == [c, e];
    assert ShownGroups(s[1..]) == [b, c, e];
  }

  /** Of the static filter set the popup shows gender, master category, subcategory and colour, in that order. */
  lemma ShownStaticGroups()
    ensures SafeGroups(Some(StaticGroups)) == [GenderGroup, MasterCategoryGroup, SubCategoryGroup, ColorGroup]
  {
    ShownOfEight(GenderGroup, MasterCategoryGroup, SubCategoryGroup, ArticleTypeGroup, ColorGroup, SeasonGroup, YearGroup, UsageGroup);
  }

  // ---------------------------------------------------------------- count and summary

  /** A selection value that counts: a non-empty string (`!!v`). */
  predicate IsSet(v: Option<string>) {
    v.Some? && v.value != ""
  }

  /** `Object.values(selection).filter(v => !!v).length` */
  function SelectedCount(sel: Selection): nat {
    |set k | k in sel && IsSet(sel[k])|
  }

  /** Setting a group changes the count by at most one, in the direction of the new value. */
  lemma SelectedCountSetKey(sel: Selection, key: string, v: Option<string>)
    ensures var before, after := SelectedCount(sel), SelectedCount(sel[key := v]);
            && (IsSet(v) && !(key in sel && IsSet(sel[key])) ==> after == before + 1)
            && (!IsSet(v) && key in sel && IsSet(sel[key]) ==> after + 1 == before)
            && (IsSet(v) == (key in sel && IsSet(sel[key])) ==> after == before)
  {
    var s0 := set k | k in sel && IsSet(sel[k]);
    var m := sel[key := v];
    var s1 := set k | k in m && IsSet(m[k]);
    if IsSet(v) {
      assert s1 == s0 + {key};
    } else {
      assert s1 == s0 - {key};
    }
  }

  /** `groups.find(x => x.key === key)` */
  function FindGroup(gs: seq<FilterGroup>, key: string): (r: Option<FilterGroup>)
    ensures r.Some? <==> exists i :: 0 <= i < |gs| && gs[i].key == key
    ensures r.Some? ==> exists i :: 0 <= i < |gs| && gs[i] == r.value && r.value.key == key && forall j :: 0 <= j < i ==> gs[j].key != key
  {
    if gs == [] then None
    else if gs[0].key == key then Some(gs[0])
    else
      var r := FindGroup(gs[1..], key);
      assert forall i :: 1 <= i < |gs| ==> gs[i] == gs[1..][i - 1];
      r
  }

  /** `options.find(o => o.id === id)` */
  function FindOption(opts: seq<FilterOption>, id: string): (r: Option<FilterOption>)
    ensures r.Some? <==> exists i :: 0 <= i < |opts| && opts[i].id == id
    ensures r.Some? ==> r.value in opts && r.value.id == id
    ensures r.Some? ==> exists i :: 0 <= i < |opts| && opts[i] == r.value && forall j :: 0 <= j < i ==> opts[j].id != id
  {
    if opts == [] then None
    else if opts[0].id == id then Some(opts[0])
    else
      var r := FindOption(opts[1..], id);
      assert forall i :: 1 <= i < |opts| ==> opts[i] == opts[1..][i - 1];
      r
  }

  /** What `take(key)` pushes: the matching option's label, or the raw value; nothing for an unshown group or an unset value. */
  function SummaryPart(shown: seq<FilterGroup>, sel: Selection, key: string): Option<string> {
    var g := FindGroup(shown, key);
    var v := Selected(sel, key);
    if g.None? || !IsSet(v) then None
    else
      var opt := FindOption(g.value.options, v.value);
      Some(if opt.Some? then opt.value.caption else v.value)
  }

  /** The parts for a list of keys, in order. */
  function SummaryParts(shown: seq<FilterGroup>, sel: Selection, keys: seq<string>): seq<string>
    decreases |keys|
  {
    if keys == [] then []
    else
      var last := SummaryPart(shown, sel, keys[|keys| - 1]);
      SummaryParts(shown, sel, keys[..|keys| - 1]) + (if last.Some? then [last.value] else [])
  }

  lemma SummaryPartsSnoc(shown: seq<FilterGroup>, sel: Selection, keys: seq<string>, key: string)
    ensures var p := SummaryPart(shown, sel, key);
            SummaryParts(shown, sel, keys + [key]) == SummaryParts(shown, sel, keys) + (if p.Some? then [p.value] else [])
  {
    assert (keys + [key])[..|keys|] == keys;
  }

  /** `summary`: `take` over the four keys pushes into `parts`, which is then joined. */
  method Summary(shown: seq<FilterGroup>, sel: Selection) returns (s: string)
    ensures s == Join(SummaryParts(shown, sel, SummaryKeys), SummarySeparator)
  {
    var parts: seq<string> := [];
    var i := 0;
    while i < |SummaryKeys|
      invariant 0 <= i <= |SummaryKeys|
      invariant parts == SummaryParts(shown, sel, SummaryKeys[..i])
    {
      var key := SummaryKeys[i];
      assert SummaryKeys[..i + 1] == SummaryKeys[..i] + [key];
      SummaryPartsSnoc(shown, sel, SummaryKeys[..i], key);
      var g := FindGroup(shown, key);
      var val := Selected(sel, key);
      if g.Some? && val.Some? && val.value != "" {
        var opt := FindOption(g.value.options, val.value);
        parts := parts + [if opt.Some? then opt.value.caption else val.value];
      }
      i := i + 1;
    }
    assert SummaryKeys[..i] == SummaryKeys;
    s := Join(parts, SummarySeparator);
  }

  /**
   * A key contributes a part exactly when its group is shown and its value is
   * set; the part is that option's label, or the value itself when no option has
   * that id.
   */
  lemma SummaryPartSpec(shown: seq<FilterGroup>, sel: Selection, key: string)
    ensures SummaryPart(shown, sel, key).Some? <==> (exists i :: 0 <= i < |shown| && shown[i].key == key) && IsSet(Selected(sel, key))
    ensures SummaryPart(shown, sel, key).Some? ==>
              var g, v := FindGroup(shown, key).value, Selected(sel, key).value;
              (exists i :: 0 <= i < |g.options| && g.options[i].id == v && (forall j :: 0 <= j < i ==> g.options[j].id != v)
                             && SummaryPart(shown, sel, key).value == g.options[i].caption)
              || ((forall o :: o in g.options ==> o.id != v) && SummaryPart(shown, sel, key).value == v)
  {
    var g := FindGroup(shown, key);
    var v := Selected(sel, key);
    if g.Some? && IsSet(v) {
      var opt := FindOption(g.value.options, v.value);
      if opt.None? {
        forall o | o in g.value.options
          ensures o.id != v.value
        {
          var i :| 0 <= i < |g.value.options| && g.value.options[i] == o;
        }
      }
    }
  }

  /** A selection with nothing set has an empty summary. */
  lemma {:induction false} SummaryOfUnset(shown: seq<FilterGroup>, sel: Selection, keys: seq<string>)
    requires forall k :: k in sel ==> !IsSet(sel[k])
    ensures SummaryParts(shown, sel, keys) == []
    decreases |keys|
  {
    if keys != [] {
      SummaryOfUnset(shown, sel, keys[..|keys| - 1]);
    }
  }

  // ---------------------------------------------------------------- reset

  /** The selection `reset` builds: every shown group key mapped to `null`. */
  ghost predicate ClearedFor(cleared: Selection, shown: seq<FilterGroup>) {
    && (forall k :: k in cleared <==> exists j :: 0 <= j < |shown| && shown[j].key == k)
    && (forall k :: k in cleared ==> cleared[k] == None)
  }

  /** A cleared selection counts nothing and summarises to the empty string. */
  lemma ClearedCountsNothing(cleared: Selection, shown: seq<FilterGroup>)
    requires ClearedFor(cleared, shown)
    ensures SelectedCount(cleared) == 0
    ensures SummaryParts(shown, cleared, SummaryKeys) == []
  {
    var s := set k | k in cleared && IsSet(cleared[k]);
    assert s == {};
    SummaryOfUnset(shown, cleared, SummaryKeys);
  }

  // ---------------------------------------------------------------- the popup as an object

  /** The popup's local state and the selections it has passed to `onChange`. */
  class FilterPanel {
    var visible: bool
    var draft: Selection
    /** Every selection emitted through `onChange`, oldest first. */
    var emitted: seq<Selection>

    constructor ()
      ensures !visible && draft == map[] && emitted == []
    {
      visible := false;
      draft := map[];
      emitted := [];
    }

    /** The Filters button. */
    method Open()
      modifies this
      ensures visible && draft == old(draft) && emitted == old(emitted)
    {
      visible := true;
    }

    /** The close button or the back gesture: the draft is kept and nothing is emitted. */
    method Close()
      modifies this
      ensures !visible && draft == old(draft) && emitted == old(emitted)
    {
      visible := false;
    }

    /** The effect that copies a new committed selection into the draft. */
    method SyncDraft(selection: Selection)
      modifies this
      ensures draft == selection && visible == old(visible) && emitted == old(emitted)
    {
      draft := selection;
    }

    /** `setGroup(key, val)`: changes that key of the draft only; the parent sees nothing. */
    method SetGroup(key: string, val: Option<string>)
      modifies this
      ensures draft == old(draft)[key := val]
      ensures visible == old(visible) && emitted == old(emitted)
    {
      draft := draft[key := val];
    }

    /** A chip tap in group `g`. */
    method Press(g: FilterGroup, chip: Chip)
      modifies this
      ensures draft == old(draft)[g.key := TapValue(Selected(old(draft), g.key), chip)]
      ensures visible == old(visible) && emitted == old(emitted)
    {
      SetGroup(g.key, TapValue(Selected(draft, g.key), chip));
    }

    /** `apply()`: emits the draft and closes. */
    method Apply()
      modifies this
      ensures emitted == old(emitted) + [old(draft)]
      ensures draft == old(draft) && !visible
    {
      emitted := emitted + [draft];
      visible := false;
    }

    /**
     * `reset()`: builds the cleared selection group by group, emits it, makes it
     * the draft, and closes.
     */
    method Reset(shown: seq<FilterGroup>)
      modifies this
      ensures ClearedFor(draft, shown)
      ensures emitted == old(emitted) + [draft]
      ensures !visible
    {
      var cleared: Selection := map[];
      var i := 0;
      while i < |shown|
        invariant 0 <= i <= |shown|
        invariant ClearedFor(cleared, shown[..i])
      {
        cleared := cleared[shown[i].key := None];
        assert shown[..i + 1][..i] == shown[..i];
        assert shown[..i + 1][i] == shown[i];
        i := i + 1;
      }
      assert shown[..i] == shown;
      emitted := emitted + [cleared];
      draft := cleared;
      visible := false;
    }
  }
}
