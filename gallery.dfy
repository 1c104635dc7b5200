/**
 * The home page of `app/page.tsx`: the category selection (null for all),
 * the filtered list it shows, the result line above the grid, and the card
 * keys of the grid.
 */
module Gallery {
  import opened Options
  import opened Catalogue

  /** `animations.filter(animation => animation.category === category)` */
  function FilterByCategory(s: seq<Animation>, category: string): (r: seq<Animation>)
    ensures |r| <= |s|
    ensures forall a :: a in r <==> a in s && a.category == category
  {
    if s == [] then []
    else if s[0].category == category then [s[0]] + FilterByCategory(s[1..], category)
    else FilterByCategory(s[1..], category)
  }

  /**
   * `filteredAnimations`: the whole list when the selection is falsy (null, or
   * the empty string), otherwise the records of the selected category.
   */
  function FilteredAnimations(all: seq<Animation>, selectedCategory: Option<string>): (r: seq<Animation>)
    ensures |r| <= |all|
    ensures selectedCategory.None? || selectedCategory.value == "" ==> r == all
    ensures selectedCategory.Some? && selectedCategory.value != "" ==>
      forall a :: a in r <==> a in all && a.category == selectedCategory.value
  {
    if selectedCategory.Some? && selectedCategory.value != "" then
      FilterByCategory(all, selectedCategory.value)
    else
      all
  }

  /** The line above the grid: a count, or the empty-category notice. */
  datatype ResultStatus = Showing(count: nat) | NoAnimationsInCategory

  /** What the home page renders for a selection: the result line and the keys of the cards, in order. */
  datatype HomeView = HomeView(status: ResultStatus, cardKeys: seq<int>)

  function StatusOf(filtered: seq<Animation>): (st: ResultStatus)
    ensures st == NoAnimationsInCategory <==> filtered == []
    ensures st.Showing? ==> st.count == |filtered| > 0
  {
    if |filtered| > 0 then Showing(|filtered|) else NoAnimationsInCategory
  }

  function Home(selectedCategory: Option<string>): (v: HomeView)
    ensures v.status == NoAnimationsInCategory <==> v.cardKeys == []
    ensures v.status.Showing? ==> v.status.count == |v.cardKeys|
    ensures |v.cardKeys| <= |animations|
    ensures forall k :: k in v.cardKeys ==> k in Ids(animations)
  {
    var filtered := FilteredAnimations(animations, selectedCategory);
    HomeView(StatusOf(filtered), Ids(filtered))
  }

  // ---- the filter ----

  /** Filtering a concatenation filters each part: the filter keeps relative order. */
  lemma {:induction false} FilterAppend(s: seq<Animation>, t: seq<Animation>, category: string)
    ensures FilterByCategory(s + t, category) == FilterByCategory(s, category) + FilterByCategory(t, category)
  {
    if s == [] {
      assert s + t == t;
    } else {
      assert (s + t)[1..] == s[1..] + t;
      FilterAppend(s[1..], t, category);
    }
  }

  /** A single record is kept exactly when its category is the selected one. */
  lemma FilterSingleton(a: Animation, category: string)
    ensures FilterByCategory([a], category) == if a.category == category then [a] else []
  {
    assert [a][1..] == [];
  }

  /** The filter keeps every occurrence of a matching record and none of the others. */
  lemma {:induction false} FilterCounts(s: seq<Animation>, category: string, a: Animation)
    ensures multiset(FilterByCategory(s, category))[a] == if a.category == category then multiset(s)[a] else 0
  {
    if s != [] {
      FilterCounts(s[1..], category, a);
      assert s == [s[0]] + s[1..];
    }
  }

  /** Filtering twice by the same category changes nothing. */
  lemma {:induction false} FilterIdempotent(s: seq<Animation>, category: string)
    ensures FilterByCategory(FilterByCategory(s, category), category) == FilterByCategory(s, category)
  {
    if s != [] {
      FilterIdempotent(s[1..], category);
      if s[0].category == category {
        var r := FilterByCategory(s, category);
        assert r[0] == s[0] && r[1..] == FilterByCategory(s[1..], category);
      }
    }
  }

  /** A subsequence of records with distinct ids has distinct ids. */
  lemma {:induction false} FilterKeepsIdsDistinct(s: seq<Animation>, category: string)
    requires Distinct(Ids(s))
    ensures Distinct(Ids(FilterByCategory(s, category)))
  {
    if s != [] {
      var rest := s[1..];
      assert Distinct(Ids(rest)) by {
        forall i, j | 0 <= i < j < |rest| ensures Ids(rest)[i] != Ids(rest)[j] {
          assert Ids(s)[i + 1] != Ids(s)[j + 1];
        }
      }
      FilterKeepsIdsDistinct(rest, category);
      if s[0].category == category {
        var fr := FilterByCategory(rest, category);
        var r := [s[0]] + fr;
        forall i, j | 0 <= i < j < |r| ensures Ids(r)[i] != Ids(r)[j] {
          if i == 0 {
            assert r[j] == fr[j - 1] && fr[j - 1] in rest;
            var m :| 0 <= m < |rest| && rest[m] == fr[j - 1];
            assert Ids(s)[0] != Ids(s)[m + 1];
          } else {
            assert Ids(fr)[i - 1] != Ids(fr)[j - 1];
          }
        }
      }
    }
  }

  // ---- the page ----

  /** A null or empty selection shows every animation, in catalogue order. */
  lemma FalsySelectionShowsAll(all: seq<Animation>, selectedCategory: Option<string>)
    requires selectedCategory.None? || selectedCategory.value == ""
    ensures FilteredAnimations(all, selectedCategory) == all
  {
  }

  /** A selected category shows exactly the records of that category, each as often as listed. */
  lemma SelectionShowsExactlyItsCategory(all: seq<Animation>, category: string)
    requires category != ""
    ensures forall a :: a in FilteredAnimations(all, Some(category)) <==> a in all && a.category == category
    ensures forall a :: multiset(FilteredAnimations(all, Some(category)))[a]
                     == if a.category == category then multiset(all)[a] else 0
    ensures |FilteredAnimations(all, Some(category))| <= |all|
  {
    forall a ensures multiset(FilteredAnimations(all, Some(category)))[a]
                  == if a.category == category then multiset(all)[a] else 0 {
      FilterCounts(all, category, a);
    }
  }

  /** Selecting again by the same selection leaves the list as it is. */
  lemma FilteredAnimationsIdempotent(all: seq<Animation>, selectedCategory: Option<string>)
    ensures FilteredAnimations(FilteredAnimations(all, selectedCategory), selectedCategory)
         == FilteredAnimations(all, selectedCategory)
  {
    if selectedCategory.Some? && selectedCategory.value != "" {
      FilterIdempotent(all, selectedCategory.value);
    }
  }

  /**
   * The count shown equals the number of cards, the empty-category notice
   * appears exactly when there are none, and the card keys are distinct.
   */
  lemma HomeViewConsistent(selectedCategory: Option<string>)
    ensures var v := Home(selectedCategory);
      && (v.status == NoAnimationsInCategory <==> v.cardKeys == [])
      && (v.status.Showing? ==> v.status.count == |v.cardKeys|)
      && |v.cardKeys| <= |animations|
      && Distinct(v.cardKeys)
  {
    CatalogueIdsDistinct();
    if selectedCategory.Some? && selectedCategory.value != "" {
      FilterKeepsIdsDistinct(animations, selectedCategory.value);
    }
  }

  /** With no selection the page shows all fifteen animations. */
  lemma HomeShowsWholeCatalogue()
    ensures Home(None).status == Showing(15)
    ensures Home(None).cardKeys == Ids(animations)
  {
    CatalogueShape();
  }

  /** Every category button leads to a non-empty list: the empty-category notice is unreachable from them. */
  lemma CategoryButtonsNeverEmpty()
    ensures forall c :: c in categories ==> FilterByCategory(animations, c) != []
    ensures forall c :: c in categories ==> Home(Some(c)).status.Showing?
  {
    forall k | 0 <= k < |categories|
      ensures FilterByCategory(animations, categories[k]) != []
    {
      // the first seven records are filed under the seven categories, in order
      assert animations[k].category == categories[k];
      assert animations[k] in animations;
    }
  }

  // ---- partition of the catalogue by category ----

  /** How many times `c` is listed in `cats`. */
  function Occurrences(cats: seq<string>, c: string): nat {
    if cats == [] then 0 else (if cats[0] == c then 1 else 0) + Occurrences(cats[1..], c)
  }

  /** The lengths of the per-category lists, summed over `cats`. */
  function TotalAcross(s: seq<Animation>, cats: seq<string>): nat {
    if cats == [] then 0 else |FilterByCategory(s, cats[0])| + TotalAcross(s, cats[1..])
  }

  lemma {:induction false} OccursOnce(cats: seq<string>, c: string)
    requires Distinct(cats) && c in cats
    ensures Occurrences(cats, c) == 1
  {
    if cats[0] == c {
      NotOccurring(cats[1..], c);
    } else {
      assert Distinct(cats[1..]) by {
        forall i, j | 0 <= i < j < |cats[1..]| ensures cats[1..][i] != cats[1..][j] {
          assert cats[i + 1] != cats[j + 1];
        }
      }
      OccursOnce(cats[1..], c);
    }
  }

  lemma {:induction false} NotOccurring(cats: seq<string>, c: string)
    requires Distinct([c] + cats)
    ensures Occurrences(cats, c) == 0
  {
    if cats != [] {
      var cs := [c] + cats;
      assert cs[0] != cs[1];
      assert Distinct([c] + cats[1..]) by {
        var ds := [c] + cats[1..];
        forall i, j | 0 <= i < j < |ds| ensures ds[i] != ds[j] {
          assert ds[i] == cs[if i == 0 then 0 else i + 1];
          assert ds[j] == cs[j + 1];
        }
      }
      NotOccurring(cats[1..], c);
    }
  }

  lemma {:induction false} TotalAcrossCons(a: Animation, s: seq<Animation>, cats: seq<string>)
    ensures TotalAcross([a] + s, cats) == TotalAcross(s, cats) + Occurrences(cats, a.category)
  {
    if cats != [] {
      assert ([a] + s)[1..] == s;
      TotalAcrossCons(a, s, cats[1..]);
    }
  }

  lemma {:induction false} TotalAcrossEmpty(cats: seq<string>)
    ensures TotalAcross([], cats) == 0
  {
    if cats != [] {
      TotalAcrossEmpty(cats[1..]);
    }
  }

  /** Over distinct categories that cover every record, the per-category lists together have as many records as the list. */
  lemma {:induction false} CategoriesPartition(s: seq<Animation>, cats: seq<string>)
    requires Distinct(cats)
    requires forall a :: a in s ==> a.category in cats
    ensures TotalAcross(s, cats) == |s|
  {
    if s == [] {
      TotalAcrossEmpty(cats);
    } else {
      assert s == [s[0]] + s[1..];
      CategoriesPartition(s[1..], cats);
      TotalAcrossCons(s[0], s[1..], cats);
      OccursOnce(cats, s[0].category);
    }
  }

  /** The seven per-category lists of the catalogue hold fifteen records in all. */
  lemma CataloguePartition()
    ensures TotalAcross(animations, categories) == |animations| == 15
  {
    CategoriesDistinct();
    CategoriesCoverCatalogue();
    CategoriesPartition(animations, categories);
    CatalogueShape();
  }
}
