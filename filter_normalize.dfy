/**
 * Normalisation of free-text gender and category values (src/utils/filters.ts):
 * trim and lower-case the input, map known aliases to the canonical label, and
 * otherwise capitalise the first character.
 */
module FilterNormalize {
  import opened Wrappers
  import opened Js

  const MenAliases: set<string> := {"men", "male", "m"}
  const WomenAliases: set<string> := {"women", "female", "w", "f"}
  const ApparelAliases: set<string> := {"garments", "garment", "apparel"}
  const AccessoriesAliases: set<string> := {"jewelry", "jewelery", "jewellery", "accessories"}
  const FootwearAliases: set<string> := {"footwear"}

  /** `s.charAt(0).toUpperCase() + s.slice(1)` */
  function Capitalize(s: string): string {
    if s == [] then "" else [UpperChar(s[0])] + s[1..]
  }

  /** `r` is `s` with its first character upper-cased and the rest kept. */
  predicate CapitalizedOf(r: string, s: string) {
    |r| == |s| && (s != "" ==> r[0] == UpperChar(s[0]) && r[1..] == s[1..])
  }

  /** No upper-case ASCII letter occurs in `s`, so lower-casing leaves it as it is. */
  predicate LowerFixed(s: string) {
    forall i :: 0 <= i < |s| ==> !('A' <= s[i] <= 'Z')
  }

  lemma CanonIsLower(s: string)
    ensures LowerFixed(Canon(s))
  {
  }

  /** Capitalising a lower-case word and lower-casing it again gives the word back. */
  lemma CapitalizeThenLower(s: string)
    requires LowerFixed(s)
    ensures ToLowerCase(Capitalize(s)) == s
  {
    if s != [] {
      var c := Capitalize(s);
      assert LowerChar(UpperChar(s[0])) == s[0];
      forall i | 0 <= i < |s|
        ensures ToLowerCase(c)[i] == s[i]
      {
        if i > 0 {
          assert c[i] == s[i];
        }
      }
    }
  }

  /** A capitalised lower-case word equals a capitalised label only when the words agree. */
  lemma CapitalizeInjective(s: string, w: string)
    requires LowerFixed(s) && LowerFixed(w)
    requires Capitalize(s) == Capitalize(w)
    ensures s == w
  {
    CapitalizeThenLower(s);
    CapitalizeThenLower(w);
  }

  /** The label `normalizeGender` gives a trimmed, lower-cased input. */
  function GenderLabel(s: string): string {
    if s in MenAliases then "Men"
    else if s in WomenAliases then "Women"
    else Capitalize(s)
  }

  /** The label `normalizeCategory` gives a trimmed, lower-cased input. */
  function CategoryLabel(s: string): string {
    if s in ApparelAliases then "Apparel"
    else if s in AccessoriesAliases then "Accessories"
    else if s in FootwearAliases then "Footwear"
    else Capitalize(s)
  }

  /** `normalizeGender(g)`; `None` is `undefined`. */
  function NormalizeGender(g: Option<string>): Option<string> {
    if g.None? || g.value == "" then None else Some(GenderLabel(Canon(g.value)))
  }

  /** `normalizeCategory(c)`; `None` is `undefined`. */
  function NormalizeCategory(c: Option<string>): Option<string> {
    if c.None? || c.value == "" then None else Some(CategoryLabel(Canon(c.value)))
  }

  /** The canonical labels are capitalised lower-case words. */
  lemma MenWord()
    ensures LowerFixed("men") && Capitalize("men") == "Men"
  {
    assert UpperChar('m') == 'M';
    assert "men"[1..] == "en";
  }

  lemma WomenWord()
    ensures LowerFixed("women") && Capitalize("women") == "Women"
  {
    assert UpperChar('w') == 'W';
    assert "women"[1..] == "omen";
  }

  lemma ApparelWord()
    ensures LowerFixed("apparel") && Capitalize("apparel") == "Apparel"
  {
    assert UpperChar('a') == 'A';
    assert "apparel"[1..] == "pparel";
  }

  lemma AccessoriesWord()
    ensures LowerFixed("accessories") && Capitalize("accessories") == "Accessories"
  {
    assert UpperChar('a') == 'A';
    assert "accessories"[1..] == "ccessories";
  }

  lemma FootwearWord()
    ensures LowerFixed("footwear") && Capitalize("footwear") == "Footwear"
  {
    assert UpperChar('f') == 'F';
    assert "footwear"[1..] == "ootwear";
  }

  lemma GenderLabelSpec(s: string)
    requires LowerFixed(s)
    ensures GenderLabel(s) == "Men" <==> s in MenAliases
    ensures GenderLabel(s) == "Women" <==> s in WomenAliases
    ensures GenderLabel(s) != "Men" && GenderLabel(s) != "Women" ==> ToLowerCase(GenderLabel(s)) == s
    ensures s !in MenAliases && s !in WomenAliases ==> CapitalizedOf(GenderLabel(s), s)
  {
    MenWord();
    WomenWord();
    if s !in MenAliases && s !in WomenAliases {
      CapitalizeThenLower(s);
      if Capitalize(s) == "Men" {
        CapitalizeInjective(s, "men");
      }
      if Capitalize(s) == "Women" {
        CapitalizeInjective(s, "women");
      }
    }
  }

  lemma CategoryLabelSpec(s: string)
    requires LowerFixed(s)
    ensures CategoryLabel(s) == "Apparel" <==> s in ApparelAliases
    ensures CategoryLabel(s) == "Accessories" <==> s in AccessoriesAliases
    ensures CategoryLabel(s) == "Footwear" <==> s in FootwearAliases
    ensures CategoryLabel(s) !in {"Apparel", "Accessories", "Footwear"} ==> ToLowerCase(CategoryLabel(s)) == s
    ensures s !in ApparelAliases && s !in AccessoriesAliases && s !in FootwearAliases ==> CapitalizedOf(CategoryLabel(s), s)
  {
    ApparelWord();
    AccessoriesWord();
    FootwearWord();
    if s !in ApparelAliases && s !in AccessoriesAliases && s !in FootwearAliases {
      CapitalizeThenLower(s);
      if Capitalize(s) == "Apparel" {
        CapitalizeInjective(s, "apparel");
      }
      if Capitalize(s) == "Accessories" {
        CapitalizeInjective(s, "accessories");
      }
      if Capitalize(s) == "Footwear" {
        CapitalizeInjective(s, "footwear");
      }
    }
  }

  /**
   * What `normalizeGender` promises: `undefined` exactly for a missing or empty
   * input; "Men" exactly for the men aliases and "Women" exactly for the women
   * aliases (after trimming and lower-casing); any other input comes back as a
   * word whose lower-case form is the trimmed, lower-cased input.
   */
  lemma NormalizeGenderSpec(g: Option<string>)
    ensures NormalizeGender(g).None? <==> g.None? || g.value == ""
    ensures NormalizeGender(g) == Some("Men") <==> g.Some? && g.value != "" && Canon(g.value) in MenAliases
    ensures NormalizeGender(g) == Some("Women") <==> g.Some? && g.value != "" && Canon(g.value) in WomenAliases
    ensures NormalizeGender(g).Some? && NormalizeGender(g).value !in {"Men", "Women"} ==>
              ToLowerCase(NormalizeGender(g).value) == Canon(g.value)
    ensures g.Some? && g.value != "" && Canon(g.value) !in MenAliases && Canon(g.value) !in WomenAliases ==>
              CapitalizedOf(NormalizeGender(g).value, Canon(g.value))
  {
    if g.Some? && g.value != "" {
      CanonIsLower(g.value);
      GenderLabelSpec(Canon(g.value));
    }
  }

  /** What `normalizeCategory` promises, alias group by alias group. */
  lemma NormalizeCategorySpec(c: Option<string>)
    ensures NormalizeCategory(c).None? <==> c.None? || c.value == ""
    ensures NormalizeCategory(c) == Some("Apparel") <==> c.Some? && c.value != "" && Canon(c.value) in ApparelAliases
    ensures NormalizeCategory(c) == Some("Accessories") <==> c.Some? && c.value != "" && Canon(c.value) in AccessoriesAliases
    ensures NormalizeCategory(c) == Some("Footwear") <==> c.Some? && c.value != "" && Canon(c.value) in FootwearAliases
    ensures NormalizeCategory(c).Some? && NormalizeCategory(c).value !in {"Apparel", "Accessories", "Footwear"} ==>
              ToLowerCase(NormalizeCategory(c).value) == Canon(c.value)
    ensures (c.Some? && c.value != "" && Canon(c.value) !in ApparelAliases && Canon(c.value) !in AccessoriesAliases
             && Canon(c.value) !in FootwearAliases) ==> CapitalizedOf(NormalizeCategory(c).value, Canon(c.value))
  {
    if c.Some? && c.value != "" {
      CanonIsLower(c.value);
      CategoryLabelSpec(Canon(c.value));
    }
  }

  /** Case and surrounding white space do not affect `normalizeGender`. */
  lemma NormalizeGenderIgnoresCaseAndPadding(g: string, pre: string, h: string, post: string)
    requires g != "" && CaseVariants(g, h) && AllSpace(pre) && AllSpace(post)
    ensures NormalizeGender(Some(pre + h + post)) == NormalizeGender(Some(g))
  {
    CanonIgnoresCaseAndPadding(g, pre, h, post);
  }

  /** Case and surrounding white space do not affect `normalizeCategory`. */
  lemma NormalizeCategoryIgnoresCaseAndPadding(c: string, pre: string, h: string, post: string)
    requires c != "" && CaseVariants(c, h) && AllSpace(pre) && AllSpace(post)
    ensures NormalizeCategory(Some(pre + h + post)) == NormalizeCategory(Some(c))
  {
    CanonIgnoresCaseAndPadding(c, pre, h, post);
  }

  /** A non-empty string made only of white space normalises to "", not to `undefined`. */
  lemma WhiteSpaceOnlyNormalizesToEmpty(s: string)
    requires s != "" && AllSpace(s)
    ensures NormalizeGender(Some(s)) == Some("")
    ensures NormalizeCategory(Some(s)) == Some("")
  {
    CanonOfAllSpace(s);
    EmptyLabels();
  }

  lemma CanonOfAllSpace(s: string)
    requires AllSpace(s)
    ensures Canon(s) == []
  {
    TrimStartAllSpace(s);
    assert TrimEnd(TrimStart(s)) == [];
  }

  lemma EmptyLabels()
    ensures GenderLabel("") == "" && CategoryLabel("") == ""
  {
    assert |""| == 0;
    assert "" !in MenAliases && "" !in WomenAliases;
    assert "" !in ApparelAliases && "" !in AccessoriesAliases && "" !in FootwearAliases;
  }

  /** A canonical word is already trimmed: its ends are not white space. */
  lemma CanonEndsNotSpace(g: string)
    ensures var s := Canon(g); |s| > 0 ==> !IsJsSpace(s[0]) && !IsJsSpace(s[|s| - 1])
  {
    var t := Trim(g);
    if |t| > 0 {
      LowerCharKeepsSpace(t[0]);
      LowerCharKeepsSpace(t[|t| - 1]);
    }
  }

  /** A string whose ends are not white space is its own `trim()`. */
  lemma TrimOfTrimmed(x: string)
    requires x != [] ==> !IsJsSpace(x[0]) && !IsJsSpace(x[|x| - 1])
    ensures Trim(x) == x
  {
    if x != [] {
      TrimStartNoLeadingSpace(x);
    }
  }

  /** `Canon(Capitalize(s)) == s` for a trimmed word `s` without upper-case letters. */
  lemma CanonOfCapitalized(s: string)
    requires LowerFixed(s)
    requires s != [] ==> !IsJsSpace(s[0]) && !IsJsSpace(s[|s| - 1])
    ensures Canon(Capitalize(s)) == s
  {
    var x := Capitalize(s);
    if s != [] {
      assert !IsJsSpace(UpperChar(s[0]));
      assert x[|x| - 1] == if |s| == 1 then UpperChar(s[0]) else s[|s| - 1];
    }
    TrimOfTrimmed(x);
    CapitalizeThenLower(s);
  }

  /** "Men" canonicalises to "men". */
  lemma CanonOfMen()
    ensures Canon("Men") == "men"
  {
    MenWord();
    CanonOfCapitalized("men");
  }

  /** "men" is labelled "Men". */
  lemma LabelOfMen()
    ensures GenderLabel("men") == "Men"
  {
    assert "men" in MenAliases;
  }


  /** "Women" canonicalises to "women". */
  lemma CanonOfWomen()
    ensures Canon("Women") == "women"
  {
    WomenWord();
    CanonOfCapitalized("women");
  }

  /** "women" is labelled "Women". */
  lemma LabelOfWomen()
    ensures GenderLabel("women") == "Women"
  {
    assert |"women"| == 5;
  }


  /** "Apparel" canonicalises to "apparel". */
  lemma CanonOfApparel()
    ensures Canon("Apparel") == "apparel"
  {
    ApparelWord();
    CanonOfCapitalized("apparel");
  }

  /** "apparel" is labelled "Apparel". */
  lemma LabelOfApparel()
    ensures CategoryLabel("apparel") == "Apparel"
  {
    assert "apparel" in ApparelAliases;
  }


  /** "Accessories" canonicalises to "accessories". */
  lemma CanonOfAccessories()
    ensures Canon("Accessories") == "accessories"
  {
    AccessoriesWord();
    CanonOfCapitalized("accessories");
  }

  /** "accessories" is labelled "Accessories". */
  lemma LabelOfAccessories()
    ensures CategoryLabel("accessories") == "Accessories"
  {
    assert |"accessories"| == 11;
  }


  /** "Footwear" canonicalises to "footwear". */
  lemma CanonOfFootwear()
    ensures Canon("Footwear") == "footwear"
  {
    FootwearWord();
    CanonOfCapitalized("footwear");
  }

  /** "footwear" is labelled "Footwear". */
  lemma LabelOfFootwear()
    ensures CategoryLabel("footwear") == "Footwear"
  {
    assert |"footwear"| == 8;
  }


  /** The gender label of a canonical word is a fixed point of canonicalising and labelling. */
  lemma GenderLabelStable(s: string)
    requires LowerFixed(s) && s != []
    requires !IsJsSpace(s[0]) && !IsJsSpace(s[|s| - 1])
    ensures GenderLabel(Canon(GenderLabel(s))) == GenderLabel(s)
  {
    if s in MenAliases {
      assert GenderLabel(s) == "Men";
      CanonOfMen();
      LabelOfMen();
    } else if s in WomenAliases {
      assert GenderLabel(s) == "Women";
      CanonOfWomen();
      LabelOfWomen();
    } else {
      assert GenderLabel(s) == Capitalize(s);
      CanonOfCapitalized(s);
    }
  }

  /** The category label of a canonical word is a fixed point of canonicalising and labelling. */
  lemma CategoryLabelStable(s: string)
    requires LowerFixed(s) && s != []
    requires !IsJsSpace(s[0]) && !IsJsSpace(s[|s| - 1])
    ensures CategoryLabel(Canon(CategoryLabel(s))) == CategoryLabel(s)
  {
    if s in ApparelAliases {
      assert CategoryLabel(s) == "Apparel";
      CanonOfApparel();
      LabelOfApparel();
    } else if s in AccessoriesAliases {
      assert CategoryLabel(s) == "Accessories";
      CanonOfAccessories();
      LabelOfAccessories();
    } else if s in FootwearAliases {
      assert CategoryLabel(s) == "Footwear";
      CanonOfFootwear();
      LabelOfFootwear();
    } else {
      assert CategoryLabel(s) == Capitalize(s);
      CanonOfCapitalized(s);
    }
  }

  /** Normalising a non-empty normalised gender changes nothing. */
  lemma NormalizeGenderIdempotent(g: Option<string>)
    requires NormalizeGender(g).Some? && NormalizeGender(g).value != ""
    ensures NormalizeGender(NormalizeGender(g)) == NormalizeGender(g)
  {
    var s := Canon(g.value);
    CanonIsLower(g.value);
    CanonEndsNotSpace(g.value);
    assert s != [];
    GenderLabelStable(s);
  }

  /** Normalising a non-empty normalised category changes nothing. */
  lemma NormalizeCategoryIdempotent(c: Option<string>)
    requires NormalizeCategory(c).Some? && NormalizeCategory(c).value != ""
    ensures NormalizeCategory(NormalizeCategory(c)) == NormalizeCategory(c)
  {
    var s := Canon(c.value);
    CanonIsLower(c.value);
    CanonEndsNotSpace(c.value);
    assert s != [];
    CategoryLabelStable(s);
  }
}
