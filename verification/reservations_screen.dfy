/**
 * The reservations list (src/components/screens/ReservationsScreen.tsx):
 * reservations split by status into "upcoming" (not cancelled) and "past"
 * (cancelled), with an empty-state message when both are empty.
 */
module ReservationsScreen {
  import opened Types
  import opened Seqs
  import opened Wrappers
  import App

  predicate IsUpcoming(r: Reservation)
  {
    r.status != Cancelled
  }

  predicate IsPast(r: Reservation)
  {
    r.status == Cancelled
  }

  /** `upcomingReservations`: every reservation that is not cancelled, in list order. */
  function Upcoming(rs: seq<Reservation>): (u: seq<Reservation>)
    ensures IsSubsequence(u, rs)
    ensures forall r :: r in u <==> r in rs && r.status != Cancelled
    ensures forall r :: multiset(u)[r] == if r.status != Cancelled then multiset(rs)[r] else 0
  {
    Filter(rs, IsUpcoming)
  }

  /** `pastReservations`: every cancelled reservation, in list order. */
  function Past(rs: seq<Reservation>): (p: seq<Reservation>)
    ensures IsSubsequence(p, rs)
    ensures forall r :: r in p <==> r in rs && r.status == Cancelled
    ensures forall r :: multiset(p)[r] == if r.status == Cancelled then multiset(rs)[r] else 0
  {
    Filter(rs, IsPast)
  }

  /**
   * The two sections share no reservation and together hold every one of
   * them, each as often as it occurs in the list.
   */
  lemma Partition(rs: seq<Reservation>)
    ensures multiset(Upcoming(rs)) + multiset(Past(rs)) == multiset(rs)
    ensures |Upcoming(rs)| + |Past(rs)| == |rs|
    ensures forall r :: !(r in Upcoming(rs) && r in Past(rs))
  {
    FilterPartition(rs, IsUpcoming, IsPast);
  }

  /**
   * The "no reservations yet" message, shown when both sections are empty:
   * exactly when there are no reservations at all.
   */
  predicate ShowsEmptyState(rs: seq<Reservation>)
    ensures ShowsEmptyState(rs) <==> rs == []
  {
    Partition(rs);
    |Upcoming(rs)| == 0 && |Past(rs)| == 0
  }

  /** Clicking a card in either section opens that reservation's page. */
  function CardTarget(r: Reservation): (n: App.NavRequest)
    ensures n.data == App.ReservationData(r)
    ensures App.Rendered(n.screen, n.data) == Some(App.ReservationDetailView)
  {
    App.Go(App.ReservationDetail, App.ReservationData(r))
  }

  /** The empty state's link: the explore screen, without payload. */
  function EmptyStateTarget(): (n: App.NavRequest)
    ensures n.data == App.NoData
    ensures App.Rendered(n.screen, n.data) == Some(App.ExploreView)
  {
    App.Go(App.Explore, App.NoData)
  }
}
