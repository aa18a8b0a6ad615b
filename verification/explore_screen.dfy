/**
 * The explore screen (src/components/screens/ExploreScreen.tsx): a search
 * box that filters the restaurant list by name or cuisine, ignoring case,
 * and a list/map tab switch.
 */
module ExploreScreen {
  import opened Types
  import opened Seqs
  import opened Text
  import opened Wrappers
  import App

  /**
   * A restaurant matches when its lowered name or cuisine includes the lowered
   * query. The empty query matches every restaurant, and so does a query that
   * equals the name or the cuisine up to letter case.
   */
  predicate Matches(r: Restaurant, query: string)
    ensures query == "" ==> Matches(r, query)
    ensures EqualIgnoringCase(query, r.name) || EqualIgnoringCase(query, r.cuisine) ==> Matches(r, query)
  {
    LowerIgnoresCase(query, r.name);
    LowerIgnoresCase(query, r.cuisine);
    Contains(Lower(r.name), Lower(query)) || Contains(Lower(r.cuisine), Lower(query))
  }

  /**
   * `filteredRestaurants`: the matching restaurants, in list order, every
   * matching entry kept and no other.
   */
  function Filtered(rs: seq<Restaurant>, query: string): (out: seq<Restaurant>)
    ensures IsSubsequence(out, rs)
    ensures forall r :: r in out <==> r in rs && Matches(r, query)
    ensures forall r :: multiset(out)[r] == if Matches(r, query) then multiset(rs)[r] else 0
  {
    Filter(rs, r => Matches(r, query))
  }

  /** An empty search box shows every restaurant. */
  lemma EmptyQueryKeepsAll(rs: seq<Restaurant>)
    ensures Filtered(rs, "") == rs
  {
    FilterKeepsAll(rs, r => Matches(r, ""));
  }

  /** Two queries that differ only in the case of their letters give the same list. */
  lemma CaseInsensitive(rs: seq<Restaurant>, q1: string, q2: string)
    requires EqualIgnoringCase(q1, q2)
    ensures Filtered(rs, q1) == Filtered(rs, q2)
  {
    LowerIgnoresCase(q1, q2);
    FilterCongruent(rs, r => Matches(r, q1), r => Matches(r, q2));
  }

  /** Narrowing the query can only shorten the list: a longer query keeps a sub-list. */
  lemma LongerQueryNarrows(rs: seq<Restaurant>, q: string, more: string)
    ensures forall r :: r in Filtered(rs, q + more) ==> r in Filtered(rs, q)
  {
    forall r | r in Filtered(rs, q + more)
      ensures Matches(r, q)
    {
      var lq := Lower(q + more);
      assert Lower(q) == lq[..|q|];
      if Contains(Lower(r.name), lq) {
        ContainsPrefix(Lower(r.name), lq, |q|);
      } else {
        ContainsPrefix(Lower(r.cuisine), lq, |q|);
      }
    }
  }

  /** A string that includes `needle` includes every prefix of it. */
  lemma ContainsPrefix(hay: string, needle: string, k: nat)
    requires Contains(hay, needle) && k <= |needle|
    ensures Contains(hay, needle[..k])
  {
    var i :| 0 <= i <= |hay| - |needle| && OccursAt(hay, needle, i);
    assert hay[i..i + k] == needle[..k];
    assert OccursAt(hay, needle[..k], i);
  }

  /** The two tabs; by construction `activeTab` can hold no other value. */
  datatype Tab = List | Map

  /** The screen's two state cells. */
  class ExploreState {
    var activeTab: Tab
    var searchQuery: string

    /** The screen mounts on the list tab with an empty search box. */
    constructor ()
      ensures activeTab == List && searchQuery == ""
    {
      activeTab := List;
      searchQuery := "";
    }

    /** The "Lista" and "Mapa" buttons. */
    method SelectTab(t: Tab)
      modifies this
      ensures activeTab == t && searchQuery == old(searchQuery)
    {
      activeTab := t;
    }

    /** Typing in the search box. */
    method SetQuery(q: string)
      modifies this
      ensures searchQuery == q && activeTab == old(activeTab)
    {
      searchQuery := q;
    }

    /** The cards on display: the filtered list on the list tab, none on the map tab. */
    function Cards(rs: seq<Restaurant>): (cards: seq<Restaurant>)
      reads this
      ensures activeTab == Map ==> cards == []
      ensures activeTab == List && searchQuery == "" ==> cards == rs
      ensures activeTab == List ==> cards == Filtered(rs, searchQuery)
      ensures forall r :: r in cards ==> r in rs && Matches(r, searchQuery)
    {
      if activeTab == List then
        EmptyQueryKeepsAll(rs);
        Filtered(rs, searchQuery)
      else []
    }
  }

  /** Clicking a restaurant's card opens its page, which is then on display. */
  function CardTarget(r: Restaurant): (n: App.NavRequest)
    ensures n.data == App.RestaurantData(r)
    ensures App.Rendered(n.screen, n.data) == Some(App.RestaurantDetailView)
  {
    App.Go(App.RestaurantDetail, App.RestaurantData(r))
  }

  /**
   * The floating card on the map tab always opens the first restaurant of the
   * whole list, whatever the search; the tab reads that entry while drawing,
   * so it needs a non-empty list.
   */
  function MapCardTarget(rs: seq<Restaurant>): (n: App.NavRequest)
    requires |rs| > 0
    ensures n.data == App.RestaurantData(rs[0])
    ensures App.Rendered(n.screen, n.data) == Some(App.RestaurantDetailView)
  {
    CardTarget(rs[0])
  }
}
