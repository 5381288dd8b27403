/**
 * The category tabs shared by the blog, FAQ and insights pages:
 * `['All', ...new Set(items.map(i => i.category))]`, and the test
 * `active === 'All' || item.category === active` behind each tab.
 */
module Listing {
  import opened Seqs

  const AllTab := "All"

  /** "All" followed by each category once, in order of first appearance. */
  function CategoryTabs(categories: seq<string>): (r: seq<string>)
    ensures |r| >= 1 && r[0] == AllTab
    ensures NoDup(r[1..])
    ensures forall c :: c in r[1..] <==> c in categories
    ensures |r| <= |categories| + 1
  {
    var d := Distinct(categories);
    assert ([AllTab] + d)[1..] == d;
    [AllTab] + d
  }

  /** An item with `category` is shown under the tab `active`. */
  predicate Shown(active: string, category: string) {
    active == AllTab || category == active
  }
}
