/**
 * The reservation form (src/components/screens/CreateReservationScreen.tsx):
 * a time slot picked from a fixed list, a party size moved by "-" and "+"
 * buttons within [1, 20], and a confirmation that swaps the form for a
 * success message.
 */
module CreateReservationScreen {

  /** The bookable time slots, in the order the form lists them. */
  const Times: seq<string> := [
    "12:00", "12:30", "13:00", "13:30", "14:00", "14:30",
    "19:00", "19:30", "20:00", "20:30", "21:00", "21:30", "22:00"
  ]

  const InitialTime: string := "20:00"
  const InitialGuests: int := 2
  const MinGuests: int := 1
  const MaxGuests: int := 20

  predicate GuestsInRange(g: int)
  {
    MinGuests <= g <= MaxGuests
  }

  /** The "-" button, `Math.max(1, guests - 1)`: one fewer, never below 1. */
  function Fewer(g: int): (r: int)
    ensures r >= MinGuests
    ensures g > MinGuests ==> r == g - 1
    ensures g <= MinGuests ==> r == MinGuests
  {
    if g - 1 >= MinGuests then g - 1 else MinGuests
  }

  /** The "+" button, `Math.min(20, guests + 1)`: one more, never above 20. */
  function More(g: int): (r: int)
    ensures r <= MaxGuests
    ensures g < MaxGuests ==> r == g + 1
    ensures g >= MaxGuests ==> r == MaxGuests
  {
    if g + 1 <= MaxGuests then g + 1 else MaxGuests
  }

  /** A press of one of the two party-size buttons. */
  datatype Press = Minus | Plus

  /** The party size after the presses `ps`, in order, starting from `g`. */
  function AfterPresses(g: int, ps: seq<Press>): int
    decreases |ps|
  {
    if ps == [] then g
    else AfterPresses(if ps[0] == Minus then Fewer(g) else More(g), ps[1..])
  }

  /** No sequence of presses takes an in-range party size out of [1, 20]. */
  lemma {:induction false} PressesStayInRange(g: int, ps: seq<Press>)
    requires GuestsInRange(g)
    ensures GuestsInRange(AfterPresses(g, ps))
    decreases |ps|
  {
    if ps != [] {
      PressesStayInRange(if ps[0] == Minus then Fewer(g) else More(g), ps[1..]);
    }
  }

  /** `n` presses of the same button. */
  function Repeat(p: Press, n: nat): (ps: seq<Press>)
    ensures |ps| == n
  {
    if n == 0 then [] else [p] + Repeat(p, n - 1)
  }

  /** From an in-range size, `n` presses of "+" add `n` as long as 20 is not passed. */
  lemma {:induction false} PlusPresses(g: int, n: nat)
    requires GuestsInRange(g) && g + n <= MaxGuests
    ensures AfterPresses(g, Repeat(Plus, n)) == g + n
    decreases n
  {
    if n > 0 {
      assert Repeat(Plus, n)[1..] == Repeat(Plus, n - 1);
      PlusPresses(g + 1, n - 1);
    }
  }

  /** From the initial size, every size in [1, 20] can be reached: the clamps are tight. */
  lemma EveryPartySizeReachable(k: int)
    requires GuestsInRange(k)
    ensures exists ps :: AfterPresses(InitialGuests, ps) == k
  {
    if k == MinGuests {
      assert AfterPresses(InitialGuests, [Minus]) == k;
    } else {
      PlusPresses(InitialGuests, k - InitialGuests);
    }
  }

  /**
   * A slot button is highlighted when its slot equals `time`; the slots are
   * pairwise different, so a listed `time` highlights exactly one button.
   */
  lemma OneSlotHighlighted(t: string, i: int, j: int)
    requires 0 <= i < |Times| && 0 <= j < |Times|
    requires Times[i] == t && Times[j] == t
    ensures i == j
  {
  }

  /** What the screen shows: the form, or the confirmation once confirmed. */
  datatype View = Form | Confirmation

  /**
   * The form's state cells (the date picker is not part of this model). The
   * buttons exist only while the form is shown, so every handler requires it.
   */
  class ReservationForm {
    var time: string
    var guests: int
    var showSuccess: bool

    /** The slot is one of the listed ones and the party size is within [1, 20]. */
    ghost predicate Valid()
      reads this
    {
      time in Times && GuestsInRange(guests)
    }

    /** The form opens on 20:00 for two people. */
    constructor ()
      ensures Valid()
      ensures time == InitialTime && guests == InitialGuests && !showSuccess
      ensures View() == Form
    {
      time := InitialTime;
      guests := InitialGuests;
      showSuccess := false;
    }

    function View(): View
      reads this
    {
      if showSuccess then Confirmation else Form
    }

    /** The "-" button. */
    method DecreaseGuests()
      requires Valid() && View() == Form
      modifies this
      ensures Valid()
      ensures guests == Fewer(old(guests))
      ensures time == old(time) && !showSuccess
    {
      guests := Fewer(guests);
    }

    /** The "+" button. */
    method IncreaseGuests()
      requires Valid() && View() == Form
      modifies this
      ensures Valid()
      ensures guests == More(old(guests))
      ensures time == old(time) && !showSuccess
    {
      guests := More(guests);
    }

    /** One of the slot buttons; there is a button for each listed slot and no other. */
    method SelectTime(t: string)
      requires Valid() && View() == Form
      requires t in Times
      modifies this
      ensures Valid()
      ensures time == t
      ensures guests == old(guests) && !showSuccess
    {
      time := t;
    }

    /** `handleConfirm`: from now on only the confirmation is shown. */
    method Confirm()
      requires Valid() && View() == Form
      modifies this
      ensures Valid()
      ensures showSuccess && View() == Confirmation
      ensures time == old(time) && guests == old(guests)
    {
      showSuccess := true;
    }
  }
}
