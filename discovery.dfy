/**
 * The customer discovery page: the sample businesses, the search and
 * category filter over them, and the views derived from the filtered list
 * (featured section, result count, empty state, map preview).
 */
module CustomerDiscovery {

  /** A sample business, with the fields the filter and the derived views read. */
  datatype Business = Business(
    id: string, name: string, category: string, description: string, featured: bool)

  const SampleBusinesses: seq<Business> := [
    Business("1", "Thabo's Auto Repair", "Automotive",
      "Professional automotive repair services with 15+ years experience", true),
    Business("2", "Mama Zulu's Kitchen", "Restaurant",
      "Authentic South African cuisine with traditional flavors", false),
    Business("3", "Style & Grace Hair Salon", "Beauty & Health",
      "Modern hair styling and beauty treatments for everyone", true),
    Business("4", "Fresh Market Grocery", "Grocery",
      "Fresh produce and daily essentials for your family", false)
  ]

  /** The category that matches every business. */
  const AllCategories: string := "All"

  /** The category buttons, in display order. */
  const Categories: seq<string> :=
    [AllCategories, "Automotive", "Restaurant", "Beauty & Health", "Grocery", "Electronics", "Clothing"]

  // Lower-casing, ASCII only.

  function LowerChar(c: char): (d: char)
    ensures !('A' <= d <= 'Z')
    ensures 'A' <= c <= 'Z' ==> d as int == c as int + 32
    ensures !('A' <= c <= 'Z') ==> d == c
  {
    if 'A' <= c <= 'Z' then (c as int + 32) as char else c
  }

  /** `toLowerCase()`: every character lower-cased in place. */
  function Lower(s: string): (r: string)
    ensures |r| == |s| && forall i | 0 <= i < |s| :: r[i] == LowerChar(s[i])
  {
    if s == [] then [] else [LowerChar(s[0])] + Lower(s[1..])
  }

  lemma LowerIsIdempotent(s: string)
    ensures Lower(Lower(s)) == Lower(s)
  {
    assert forall i | 0 <= i < |s| :: Lower(Lower(s))[i] == Lower(s)[i];
  }

  // Substring search.

  /** `needle` occurs in `hay` starting at index `i`. */
  predicate OccursAt(hay: string, needle: string, i: int) {
    0 <= i && i + |needle| <= |hay| && hay[i..i + |needle|] == needle
  }

  /** `hay.includes(needle)`. */
  function Includes(hay: string, needle: string): (r: bool)
    ensures r <==> exists i :: OccursAt(hay, needle, i)
    decreases |hay|
  {
    if |needle| > |hay| then false
    else if hay[..|needle|] == needle then assert OccursAt(hay, needle, 0); true
    else
      var r := Includes(hay[1..], needle);
      assert forall i | 0 < i :: OccursAt(hay, needle, i) <==> OccursAt(hay[1..], needle, i - 1);
      assert r ==> exists i :: OccursAt(hay, needle, i) by {
        if r {
          var j :| OccursAt(hay[1..], needle, j);
          assert OccursAt(hay, needle, j + 1);
        }
      }
      r
  }

  // The filter (lines 96-101 of the page).

  /** The search box test: the lower-cased query occurs in the lower-cased name or description. */
  predicate MatchesSearch(b: Business, query: string) {
    Includes(Lower(b.name), Lower(query)) || Includes(Lower(b.description), Lower(query))
  }

  /** The category test: "All" matches everything, any other selection only its own category. */
  predicate MatchesCategory(b: Business, category: string) {
    category == AllCategories || b.category == category
  }

  predicate Matches(b: Business, query: string, category: string) {
    MatchesSearch(b, query) && MatchesCategory(b, category)
  }

  /** `a` is `b` with some elements left out, the rest in their original order. */
  predicate IsSubsequence<T(==)>(a: seq<T>, b: seq<T>)
    decreases |b|
  {
    if a == [] then true
    else if b == [] then false
    else (a[0] == b[0] && IsSubsequence(a[1..], b[1..])) || IsSubsequence(a, b[1..])
  }

  lemma {:induction false} SubsequenceIsNoLonger<T>(a: seq<T>, b: seq<T>)
    requires IsSubsequence(a, b)
    ensures |a| <= |b|
    decreases |b|
  {
    if a != [] {
      if a[0] == b[0] && IsSubsequence(a[1..], b[1..]) {
        SubsequenceIsNoLonger(a[1..], b[1..]);
      } else {
        SubsequenceIsNoLonger(a, b[1..]);
      }
    }
  }

  /** `s.filter(p)`: the elements satisfying `p`, in order, each as often as in `s`. */
  function Keep<T(!new)>(s: seq<T>, p: T -> bool): (r: seq<T>)
    ensures IsSubsequence(r, s)
    ensures forall x :: multiset(r)[x] == if p(x) then multiset(s)[x] else 0
    decreases |s|
  {
    if s == [] then []
    else
      var rest := Keep(s[1..], p);
      assert s == [s[0]] + s[1..];
      if p(s[0]) then [s[0]] + rest else rest
  }

  /** Keeping with a weaker test keeps a list that the stronger test's result is a subsequence of. */
  lemma {:induction false} KeepIsMonotone<T(!new)>(s: seq<T>, p: T -> bool, q: T -> bool)
    requires forall x :: p(x) ==> q(x)
    ensures IsSubsequence(Keep(s, p), Keep(s, q))
    decreases |s|
  {
    if s != [] {
      KeepIsMonotone(s[1..], p, q);
    }
  }

  lemma {:induction false} KeepEverything<T(!new)>(s: seq<T>, p: T -> bool)
    requires forall i | 0 <= i < |s| :: p(s[i])
    ensures Keep(s, p) == s
    decreases |s|
  {
    if s != [] {
      KeepEverything(s[1..], p);
    }
  }

  /** `filteredBusinesses`: the businesses passing both tests, in their original order. */
  function FilterBusinesses(bs: seq<Business>, query: string, category: string): (r: seq<Business>)
    ensures IsSubsequence(r, bs)
    ensures forall b :: multiset(r)[b] == if Matches(b, query, category) then multiset(bs)[b] else 0
  {
    Keep(bs, b => Matches(b, query, category))
  }

  /** The empty query matches every business, so with "All" nothing is filtered out. */
  lemma EmptyQueryMatchesEverything(bs: seq<Business>)
    ensures forall b :: MatchesSearch(b, "")
    ensures FilterBusinesses(bs, "", AllCategories) == bs
  {
    forall b ensures MatchesSearch(b, "") {
      assert OccursAt(Lower(b.name), Lower(""), 0);
    }
    KeepEverything(bs, b => Matches(b, "", AllCategories));
  }

  /** The search ignores the case of the query. */
  lemma SearchIgnoresQueryCase(b: Business, query: string)
    ensures MatchesSearch(b, query) == MatchesSearch(b, Lower(query))
  {
    LowerIsIdempotent(query);
  }

  /** Picking a category can only narrow the result of "All" with the same query. */
  lemma CategoryNarrowsAll(bs: seq<Business>, query: string, category: string)
    ensures IsSubsequence(FilterBusinesses(bs, query, category), FilterBusinesses(bs, query, AllCategories))
    ensures |FilterBusinesses(bs, query, category)| <= |FilterBusinesses(bs, query, AllCategories)|
  {
    KeepIsMonotone(bs, b => Matches(b, query, category), b => Matches(b, query, AllCategories));
    SubsequenceIsNoLonger(FilterBusinesses(bs, query, category), FilterBusinesses(bs, query, AllCategories));
  }

  // The views built on the filtered list (lines 249-297 of the page).

  /** `filteredBusinesses.some(b => b.featured)`: whether the Featured section is shown. */
  predicate ShowFeatured(fs: seq<Business>) {
    exists i | 0 <= i < |fs| :: fs[i].featured
  }

  /** The cards of the Featured section. */
  function Featured(fs: seq<Business>): (r: seq<Business>)
    ensures IsSubsequence(r, fs)
    ensures forall b :: multiset(r)[b] == if b.featured then multiset(fs)[b] else 0
  {
    Keep(fs, (b: Business) => b.featured)
  }

  /** The Featured section is shown exactly when it has a card to show. */
  lemma FeaturedShownIffNonEmpty(fs: seq<Business>)
    ensures ShowFeatured(fs) <==> Featured(fs) != []
  {
    var r := Featured(fs);
    if ShowFeatured(fs) {
      var i :| 0 <= i < |fs| && fs[i].featured;
      assert multiset(r)[fs[i]] > 0;
    }
    if r != [] {
      assert multiset(r)[r[0]] > 0;
      assert r[0] in fs;
    }
  }

  /** "N found" and "No businesses found": the empty state appears iff no business passes both tests. */
  lemma EmptyStateIffNothingMatches(bs: seq<Business>, query: string, category: string)
    ensures |FilterBusinesses(bs, query, category)| == 0 <==>
      forall i | 0 <= i < |bs| :: !Matches(bs[i], query, category)
  {
    var r := FilterBusinesses(bs, query, category);
    if exists i | 0 <= i < |bs| :: Matches(bs[i], query, category) {
      var i :| 0 <= i < |bs| && Matches(bs[i], query, category);
      assert multiset(r)[bs[i]] > 0;
    }
    if r != [] {
      assert multiset(r)[r[0]] > 0;
      assert r[0] in bs;
    }
  }

  /** `filteredBusinesses.slice(0, 4)`: the map view lists the first four results, or all of fewer. */
  function MapPreview(fs: seq<Business>): (r: seq<Business>)
    ensures |r| == if |fs| < 4 then |fs| else 4
    ensures forall i | 0 <= i < |r| :: r[i] == fs[i]
  {
    if |fs| < 4 then fs else fs[..4]
  }

  /** The categories the sample businesses belong to. */
  lemma SampleCategories()
    ensures forall i | 0 <= i < |SampleBusinesses| ::
      SampleBusinesses[i].category in {"Automotive", "Restaurant", "Beauty & Health", "Grocery"}
  {
  }

  /** A category, other than "All", that no listed business has yields the empty state. */
  lemma AbsentCategoryIsEmpty(bs: seq<Business>, query: string, category: string)
    requires category != AllCategories
    requires forall i | 0 <= i < |bs| :: bs[i].category != category
    ensures FilterBusinesses(bs, query, category) == []
  {
    EmptyStateIffNothingMatches(bs, query, category);
  }

  lemma CategoryWithoutBusinessesIsEmpty(query: string, category: string)
    requires category !in {AllCategories, "Automotive", "Restaurant", "Beauty & Health", "Grocery"}
    ensures FilterBusinesses(SampleBusinesses, query, category) == []
  {
    SampleCategories();
    AbsentCategoryIsEmpty(SampleBusinesses, query, category);
  }

  /** "Electronics" and "Clothing" have a button but no sample business. */
  lemma UnusedCategoriesAreEmpty(query: string)
    ensures "Electronics" in Categories && "Clothing" in Categories
    ensures FilterBusinesses(SampleBusinesses, query, "Electronics") == []
    ensures FilterBusinesses(SampleBusinesses, query, "Clothing") == []
  {
    CategoryWithoutBusinessesIsEmpty(query, "Electronics");
    CategoryWithoutBusinessesIsEmpty(query, "Clothing");
  }
}
