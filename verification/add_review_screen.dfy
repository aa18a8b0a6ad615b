/**
 * The review form (src/components/screens/AddReviewScreen.tsx): five star
 * buttons that set a rating of 1 to 5, a hover preview, a label for the
 * chosen rating, a comment box, and a submit button that stays disabled
 * until there is a rating and a comment that is not just white space.
 */
module AddReviewScreen {
  import opened Text
  import opened Wrappers
  import ReviewCard

  const MaxRating: int := 5

  predicate IsStar(k: int)
  {
    1 <= k <= MaxRating
  }

  /**
   * `hoveredRating || rating`: the hovered star while there is one, else the
   * rating; a star number or 0 when both are.
   */
  function DisplayRating(hovered: int, rating: int): (d: int)
    ensures hovered != 0 ==> d == hovered
    ensures hovered == 0 ==> d == rating
    ensures 0 <= hovered <= MaxRating && 0 <= rating <= MaxRating ==> 0 <= d <= MaxRating
  {
    if hovered != 0 then hovered else rating
  }

  /**
   * Star button `k` (counting from 1) is drawn filled: while a star is hovered,
   * exactly the stars up to it; otherwise exactly the stars up to the rating.
   */
  predicate Highlighted(k: int, hovered: int, rating: int)
    ensures hovered != 0 ==> (Highlighted(k, hovered, rating) <==> k <= hovered)
    ensures hovered == 0 ==> (Highlighted(k, hovered, rating) <==> k <= rating)
  {
    k <= DisplayRating(hovered, rating)
  }

  /** The five star buttons, `true` for a filled one. */
  function HighlightRow(hovered: int, rating: int): (row: seq<bool>)
    ensures |row| == MaxRating
  {
    seq(MaxRating, i => Highlighted(i + 1, hovered, rating))
  }

  /**
   * The form previews a rating exactly as a review card will show it: the
   * filled stars are those of the card for the displayed rating.
   */
  lemma SameStarsAsReviewCard(hovered: int, rating: int)
    ensures HighlightRow(hovered, rating) == ReviewCard.StarRow(DisplayRating(hovered, rating))
  {
  }

  /**
   * While a star is hovered the row follows the hover whatever the rating;
   * with no hover it shows exactly `rating` filled stars.
   */
  lemma HoverOverridesRating(hovered: int, rating: int, other: int)
    requires IsStar(hovered)
    requires 0 <= rating <= MaxRating
    ensures HighlightRow(hovered, rating) == HighlightRow(hovered, other)
    ensures ReviewCard.Filled(HighlightRow(0, rating)) == rating
    ensures ReviewCard.Filled(HighlightRow(hovered, rating)) == hovered
  {
    SameStarsAsReviewCard(0, rating);
    ReviewCard.FilledCount(rating);
    SameStarsAsReviewCard(hovered, rating);
    ReviewCard.FilledCount(hovered);
  }

  /** The words for ratings 1 to 5, in that order. */
  const RatingWords: seq<string> := ["Malo", "Regular", "Bueno", "Muy bueno", "¡Excelente!"]

  /**
   * The line under the stars: shown exactly once a rating is chosen, naming
   * ratings 1..5 in order; for a rating above 5 it would be shown but empty.
   */
  function Label(rating: int): (l: Option<string>)
    ensures l.Some? <==> rating > 0
    ensures IsStar(rating) ==> l == Some(RatingWords[rating - 1])
    ensures rating > MaxRating ==> l == Some("")
  {
    if rating > 0 then
      Some(if rating == 5 then "¡Excelente!"
           else if rating == 4 then "Muy bueno"
           else if rating == 3 then "Bueno"
           else if rating == 2 then "Regular"
           else if rating == 1 then "Malo"
           else "")
    else None
  }

  /** The five labels are pairwise different. */
  lemma LabelsDistinct(a: int, b: int)
    requires IsStar(a) && IsStar(b) && a != b
    ensures Label(a) != Label(b)
  {
  }

  /**
   * The submit button's `disabled` condition: it is enabled exactly with a
   * rating and a comment that is not all white space.
   */
  predicate SubmitDisabled(rating: int, comment: string)
    ensures SubmitDisabled(rating, comment) <==> rating == 0 || IsBlank(comment)
  {
    rating == 0 || |Trim(comment)| == 0
  }

  /** What the screen shows: the form, or the thanks once submitted. */
  datatype View = Form | ThankYou

  /**
   * The form's state cells. The stars, the comment box and the button exist
   * only while the form is shown, so every handler requires it.
   */
  class ReviewForm {
    var rating: int
    var hoveredRating: int
    var comment: string
    var submitted: bool

    /** Both the rating and the hovered star are 0 (none) or a star number. */
    ghost predicate Valid()
      reads this
    {
      0 <= rating <= MaxRating && 0 <= hoveredRating <= MaxRating
    }

    /** The form opens with no rating, no hover and an empty comment; submit is disabled. */
    constructor ()
      ensures Valid()
      ensures rating == 0 && hoveredRating == 0 && comment == "" && !submitted
      ensures SubmitDisabled(rating, comment) && View() == Form
    {
      rating := 0;
      hoveredRating := 0;
      comment := "";
      submitted := false;
    }

    function View(): View
      reads this
    {
      if submitted then ThankYou else Form
    }

    /** Clicking star button `k`. */
    method Rate(k: int)
      requires Valid() && View() == Form && IsStar(k)
      modifies this
      ensures Valid()
      ensures rating == k && Label(rating) == Some(RatingWords[k - 1])
      ensures hoveredRating == old(hoveredRating) && comment == old(comment) && !submitted
    {
      rating := k;
    }

    /** The mouse entering star button `k`. */
    method Hover(k: int)
      requires Valid() && View() == Form && IsStar(k)
      modifies this
      ensures Valid()
      ensures hoveredRating == k
      ensures rating == old(rating) && comment == old(comment) && !submitted
    {
      hoveredRating := k;
    }

    /** The mouse leaving a star button: the row shows the rating again. */
    method Unhover()
      requires Valid() && View() == Form
      modifies this
      ensures Valid()
      ensures hoveredRating == 0
      ensures HighlightRow(hoveredRating, rating) == ReviewCard.StarRow(rating)
      ensures rating == old(rating) && comment == old(comment) && !submitted
    {
      hoveredRating := 0;
    }

    /** Typing in the comment box. */
    method EditComment(c: string)
      requires Valid() && View() == Form
      modifies this
      ensures Valid()
      ensures comment == c
      ensures rating == old(rating) && hoveredRating == old(hoveredRating) && !submitted
    {
      comment := c;
    }

    /** `handleSubmit`, reachable only through the enabled button: from now on only the thanks show. */
    method Submit()
      requires Valid() && View() == Form && !SubmitDisabled(rating, comment)
      modifies this
      ensures Valid()
      ensures submitted && View() == ThankYou
      ensures rating == old(rating) && hoveredRating == old(hoveredRating) && comment == old(comment)
    {
      submitted := true;
    }
  }
}
