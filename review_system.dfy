/**
 * The star-rating review widget with its DOM stripped away: a current rating,
 * an in-memory list of reviews (newest first), the colour of each rating star
 * (true = highlighted yellow, false = grey), the rating label and the values
 * of the two form fields. Alerts become an `Alert` outcome, the confirmation
 * dialog a boolean parameter, and the clock (review id and date) parameters.
 */
module ReviewSystem {
  import opened JsText
  import Polyfills

  /** The number of rating stars; also the denominator of every rating shown. */
  const StarCount: nat := 5

  /** The fixed tail of the rating label when a rating is selected. */
  const SelectedSuffix: string := "/5 stars selected"

  /** The rating label when no rating is selected. */
  const NoRatingLabel: string := "Select a rating"

  datatype Review = Review(id: int, userName: string, reviewText: string, rating: int, date: string)

  /** The alert a submission ends with. */
  datatype Alert =
    | NameMissing    // "Please enter your name"
    | TextMissing    // "Please write a review"
    | RatingMissing  // "Please select a rating"
    | Submitted      // "Review submitted successfully!"

  /** One star mark in a review card. */
  datatype StarMark = Filled | Grey

  /** The three submission checks, in order; the first failing one decides. */
  function Validate(name: string, text: string, rating: int): Alert
  {
    if Trim(name) == [] then NameMissing
    else if Trim(text) == [] then TextMissing
    else if rating == 0 then RatingMissing
    else Submitted
  }

  /**
   * Validation in terms of the raw field values: the name is checked first,
   * then the text, then the rating, and a submission goes through exactly when
   * neither field is blank and a rating is selected.
   */
  lemma ValidationOrder(name: string, text: string, rating: int)
    ensures Validate(name, text, rating) == NameMissing <==> IsBlank(name)
    ensures Validate(name, text, rating) == TextMissing <==> !IsBlank(name) && IsBlank(text)
    ensures Validate(name, text, rating) == RatingMissing
        <==> !IsBlank(name) && !IsBlank(text) && rating == 0
    ensures Validate(name, text, rating) == Submitted
        <==> !IsBlank(name) && !IsBlank(text) && rating != 0
  {
    TrimEmptyIffBlank(name);
    TrimEmptyIffBlank(text);
  }

  /** The stars setRating highlights: those whose index is below the rating. */
  function Highlight(count: nat, rating: int): seq<bool>
  {
    seq(count, i => i < rating)
  }

  /** The label updateRatingText shows for a rating. */
  function RatingLabel(rating: int): string
  {
    if rating > 0 then NatToDecimal(rating) + SelectedSuffix else NoRatingLabel
  }

  /**
   * The label says "Select a rating" exactly when the rating is not positive;
   * otherwise it is a decimal number followed by "/5 stars selected", and that
   * number reads back as the rating.
   */
  lemma RatingLabelShowsRating(rating: int)
    ensures RatingLabel(rating) == NoRatingLabel <==> rating <= 0
    ensures rating > 0 ==>
      (var shown := RatingLabel(rating);
       var cut := |shown| - |SelectedSuffix|;
       && 0 < cut
       && shown[cut..] == SelectedSuffix
       && AllDigits(shown[..cut])
       && DecimalValue(shown[..cut]) == rating)
  {
    if rating > 0 {
      DecimalRoundTrip(rating);
      var digits := NatToDecimal(rating);
      var shown := digits + SelectedSuffix;
      assert shown[..|digits|] == digits;
      assert shown[|digits|..] == SelectedSuffix;
      assert shown[0] == digits[0] && IsDigit(shown[0]);
      assert NoRatingLabel[0] == 'S';
    }
  }

  /** The marks the star-display loop has produced after rounds 1..n. */
  function StarMarks(n: nat, rating: int): seq<StarMark>
  {
    if n == 0 then [] else StarMarks(n - 1, rating) + [if n <= rating then Filled else Grey]
  }

  /** The marks generateStarDisplay produces for a rating. */
  function StarDisplay(rating: int): seq<StarMark>
  {
    StarMarks(StarCount, rating)
  }

  /** The number of filled marks. */
  function FilledCount(marks: seq<StarMark>): nat
  {
    if marks == [] then 0
    else FilledCount(marks[..|marks| - 1]) + (if marks[|marks| - 1] == Filled then 1 else 0)
  }

  /** min(max(rating, 0), n). */
  function Clamp(rating: int, n: nat): nat
  {
    if rating < 0 then 0 else if rating > n then n else rating
  }

  /** After n rounds there are n marks, the i-th (1-based) filled exactly when i <= rating. */
  lemma {:induction false} StarMarksAt(n: nat, rating: int)
    ensures |StarMarks(n, rating)| == n
    ensures forall k :: 0 <= k < n ==> (StarMarks(n, rating)[k] == Filled <==> k + 1 <= rating)
  {
    if n > 0 {
      StarMarksAt(n - 1, rating);
    }
  }

  /** After n rounds the number of filled marks is min(max(rating, 0), n). */
  lemma {:induction false} StarMarksFilledCount(n: nat, rating: int)
    ensures FilledCount(StarMarks(n, rating)) == Clamp(rating, n)
  {
    if n > 0 {
      StarMarksFilledCount(n - 1, rating);
      var marks := StarMarks(n, rating);
      assert marks[..|marks| - 1] == StarMarks(n - 1, rating) by {
        StarMarksAt(n - 1, rating);
      }
    }
  }

  /** A review card's star marks agree with the widget's star colours for the same rating. */
  lemma StarDisplayMatchesHighlight(rating: int)
    ensures |StarDisplay(rating)| == |Highlight(StarCount, rating)|
    ensures forall k :: 0 <= k < StarCount ==>
      (StarDisplay(rating)[k] == Filled <==> Highlight(StarCount, rating)[k])
  {
    StarMarksAt(StarCount, rating);
  }

  /** generateStarDisplay: five marks, the i-th (1-based) filled exactly when i <= rating. */
  method GenerateStarDisplay(rating: int) returns (marks: seq<StarMark>)
    ensures marks == StarDisplay(rating)
    ensures |marks| == StarCount
    ensures forall k :: 0 <= k < StarCount ==> (marks[k] == Filled <==> k + 1 <= rating)
    ensures FilledCount(marks) == Clamp(rating, StarCount)
  {
    marks := [];
    var i := 1;
    while i <= StarCount
      invariant 1 <= i <= StarCount + 1
      invariant marks == StarMarks(i - 1, rating)
    {
      if i <= rating {
        marks := marks + [Filled];
      } else {
        marks := marks + [Grey];
      }
      i := i + 1;
    }
    StarMarksAt(StarCount, rating);
    StarMarksFilledCount(StarCount, rating);
  }

  /** The reviews left by deleteReview: every review whose id differs. */
  function RemoveById(reviews: seq<Review>, id: int): seq<Review>
  {
    Polyfills.FilterSpec(reviews, KeepUnless(id))
  }

  /** The filter callback of deleteReview: keep a review unless it carries the id being deleted. */
  function KeepUnless(id: int): Review -> bool
  {
    (review: Review) => review.id != id
  }

  /**
   * Deleting by id keeps, in their original order, exactly the reviews at the
   * indices whose id differs: `idx` lists those indices in ascending order.
   */
  lemma RemoveByIdKeepsOthers(reviews: seq<Review>, id: int) returns (idx: seq<nat>)
    ensures |idx| == |RemoveById(reviews, id)|
    ensures forall k :: 0 <= k < |idx| ==> idx[k] < |reviews| && RemoveById(reviews, id)[k] == reviews[idx[k]]
    ensures forall k, l :: 0 <= k < l < |idx| ==> idx[k] < idx[l]
    ensures forall i :: 0 <= i < |reviews| ==> (reviews[i].id != id <==> i in idx)
  {
    idx := Polyfills.FilterIndices(reviews, KeepUnless(id));
  }

  /** After deleting by id, no review with that id remains, and every other review does. */
  lemma RemoveByIdMembership(reviews: seq<Review>, id: int)
    ensures forall r :: r in RemoveById(reviews, id) <==> r in reviews && r.id != id
  {
    Polyfills.FilterMembership(reviews, KeepUnless(id));
  }

  /** Deleting an id no review carries leaves the list as it was. */
  lemma RemoveAbsentId(reviews: seq<Review>, id: int)
    requires forall k :: 0 <= k < |reviews| ==> reviews[k].id != id
    ensures RemoveById(reviews, id) == reviews
  {
    Polyfills.FilterAllAccepted(reviews, KeepUnless(id));
  }

  /** Deleting the same id twice is deleting it once. */
  lemma RemoveByIdIdempotent(reviews: seq<Review>, id: int)
    ensures RemoveById(RemoveById(reviews, id), id) == RemoveById(reviews, id)
  {
    var rest := RemoveById(reviews, id);
    RemoveByIdMembership(reviews, id);
    assert forall k :: 0 <= k < |rest| ==> rest[k] in rest;
    RemoveAbsentId(rest, id);
  }

  /** What every stored review satisfies: a trimmed, non-empty name and text and a rating of 1 to 5. */
  predicate WellFormed(review: Review)
  {
    && 1 <= review.rating <= StarCount
    && review.userName != [] && Trim(review.userName) == review.userName
    && review.reviewText != [] && Trim(review.reviewText) == review.reviewText
  }

  /** The module-level state of the widget and the parts of the page it writes. */
  class Widget {
    var currentRating: int
    var reviews: seq<Review>
    /** Colour of each rating star: true for highlighted, false for grey. */
    var starLit: seq<bool>
    var ratingText: string
    var userNameInput: string
    var reviewTextInput: string

    /**
     * The widget's invariant: the selected rating is 0 (none) to 5, the stars
     * and the label show it, and every stored review is well formed.
     */
    ghost predicate Valid()
      reads this
    {
      && 0 <= currentRating <= StarCount
      && starLit == Highlight(StarCount, currentRating)
      && ratingText == RatingLabel(currentRating)
      && forall k :: 0 <= k < |reviews| ==> WellFormed(reviews[k])
    }

    /** The page as loaded: no rating, no reviews, grey stars, empty fields. */
    constructor ()
      ensures Valid()
      ensures currentRating == 0 && reviews == []
      ensures userNameInput == "" && reviewTextInput == ""
    {
      currentRating := 0;
      reviews := [];
      starLit := Highlight(StarCount, 0);
      ratingText := NoRatingLabel;
      userNameInput := "";
      reviewTextInput := "";
    }

    /** setRating: stores the rating and colours the stars below it yellow, the rest grey. */
    method SetRating(rating: int)
      modifies this
      ensures currentRating == rating
      ensures starLit == Highlight(|old(starLit)|, rating)
      ensures reviews == old(reviews) && ratingText == old(ratingText)
      ensures userNameInput == old(userNameInput) && reviewTextInput == old(reviewTextInput)
    {
      currentRating := rating;
      var index := 0;
      while index < |starLit|
        invariant 0 <= index <= |starLit| == |old(starLit)|
        invariant forall k :: 0 <= k < index ==> starLit[k] == (k < rating)
        invariant currentRating == rating
        invariant reviews == old(reviews) && ratingText == old(ratingText)
        invariant userNameInput == old(userNameInput) && reviewTextInput == old(reviewTextInput)
      {
        if index < rating {
          starLit := starLit[index := true];
        } else {
          starLit := starLit[index := false];
        }
        index := index + 1;
      }
    }

    /** updateRatingText: shows the label for the rating. */
    method UpdateRatingText(rating: int)
      modifies this
      ensures ratingText == RatingLabel(rating)
      ensures currentRating == old(currentRating) && starLit == old(starLit)
      ensures reviews == old(reviews)
      ensures userNameInput == old(userNameInput) && reviewTextInput == old(reviewTextInput)
    {
      if rating > 0 {
        ratingText := NatToDecimal(rating) + SelectedSuffix;
      } else {
        ratingText := NoRatingLabel;
      }
    }

    /** A click on the star at position `index` selects the rating index + 1. */
    method ClickStar(index: nat)
      requires Valid()
      requires index < StarCount
      modifies this
      ensures Valid()
      ensures currentRating == index + 1 && 1 <= currentRating <= StarCount
      ensures reviews == old(reviews)
      ensures userNameInput == old(userNameInput) && reviewTextInput == old(reviewTextInput)
    {
      currentRating := index + 1;
      SetRating(currentRating);
      UpdateRatingText(currentRating);
    }

    /** resetForm: empties both fields, clears the rating and greys every star. */
    method ResetForm()
      requires Valid()
      modifies this
      ensures Valid()
      ensures userNameInput == "" && reviewTextInput == ""
      ensures currentRating == 0
      ensures forall k :: 0 <= k < |starLit| ==> !starLit[k]
      ensures ratingText == NoRatingLabel
      ensures reviews == old(reviews)
    {
      userNameInput := "";
      reviewTextInput := "";
      currentRating := 0;
      SetRating(0);
      ratingText := NoRatingLabel;
    }

    /**
     * handleSubmitReview: runs the three checks in order; on the first failure
     * nothing changes, otherwise the new review goes to the front of the list
     * and the form is reset. `id` and `date` are the clock readings.
     */
    method HandleSubmitReview(id: int, date: string) returns (alert: Alert)
      requires Valid()
      modifies this
      ensures Valid()
      ensures alert == Validate(old(userNameInput), old(reviewTextInput), old(currentRating))
      ensures alert != Submitted ==> unchanged(this)
      ensures alert == Submitted ==>
        && reviews == [Review(id, Trim(old(userNameInput)), Trim(old(reviewTextInput)),
                              old(currentRating), date)] + old(reviews)
        && currentRating == 0
        && (forall k :: 0 <= k < |starLit| ==> !starLit[k])
        && ratingText == NoRatingLabel
        && userNameInput == "" && reviewTextInput == ""
    {
      var userName := Trim(userNameInput);
      var reviewText := Trim(reviewTextInput);

      if userName == [] {
        return NameMissing;
      }
      if reviewText == [] {
        return TextMissing;
      }
      if currentRating == 0 {
        return RatingMissing;
      }

      var newReview := Review(id, userName, reviewText, currentRating, date);
      TrimIdempotent(userNameInput);
      TrimIdempotent(reviewTextInput);
      reviews := [newReview] + reviews;
      ResetForm();
      alert := Submitted;
    }

    /**
     * deleteReview: when the user confirms, removes every review with the
     * given id (ids need not be unique); otherwise nothing changes.
     */
    method DeleteReview(reviewId: int, confirmed: bool)
      requires Valid()
      modifies this
      ensures Valid()
      ensures reviews == if confirmed then RemoveById(old(reviews), reviewId) else old(reviews)
      ensures currentRating == old(currentRating) && starLit == old(starLit)
      ensures ratingText == old(ratingText)
      ensures userNameInput == old(userNameInput) && reviewTextInput == old(reviewTextInput)
    {
      if confirmed {
        RemoveByIdMembership(reviews, reviewId);
        reviews := RemoveById(reviews, reviewId);
        assert forall k :: 0 <= k < |reviews| ==> reviews[k] in old(reviews);
      }
    }
  }

  /** A session on a fresh page, using only the contracts above. */
  method SubmissionScenario()
  {
    var w := new Widget();
    w.userNameInput := "  ";
    w.reviewTextInput := "Great";
    var alert := w.HandleSubmitReview(1, "1/1/2025");
    assert alert == NameMissing;

    w.userNameInput := "Ann";
    alert := w.HandleSubmitReview(2, "1/1/2025");
    assert alert == RatingMissing;
    assert w.reviews == [];

    w.ClickStar(2);
    alert := w.HandleSubmitReview(3, "1/1/2025");
    assert alert == Submitted;
    assert w.reviews == [Review(3, "Ann", "Great", 3, "1/1/2025")];
    assert w.currentRating == 0 && w.ratingText == NoRatingLabel;

    w.DeleteReview(3, false);
    assert |w.reviews| == 1;
    w.DeleteReview(3, true);
    assert w.reviews == [] by {
      RemoveByIdMembership([Review(3, "Ann", "Great", 3, "1/1/2025")], 3);
    }
  }
}
