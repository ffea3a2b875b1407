# js-practice browser exercises, modelled in Dafny

This project models three small browser exercises:

- **Array iteration polyfills** (`polyfills.dfy`, module `Polyfills`). `myForEach`, `myMap` and `myFilter` are written as Dafny methods with `for` loops over the `array` they are called on. Each method is proved against a specification function that builds the result the way the loop does. Lemmas then give those functions their meaning: the call order, element-wise results, length, the subsequence and its exact indices, membership, the copy and empty cases, and the demo inputs. None of the methods has a `modifies` clause, so the verifier also guarantees that the input array is left unchanged.
- **Review widget** (`review_system.dfy`, module `ReviewSystem`, class `Widget`). The module-level `currentRating` and `reviews`, the colour of each rating star (a `seq<bool>`), the rating label and the two form-field values are fields of one object. Star clicks, `setRating`, `updateRatingText`, `handleSubmitReview` (three checks in order, then a prepend and a form reset), `deleteReview` and `resetForm` are methods. Each method states the whole new state. The invariant `Valid()` says that the rating is 0 to 5, that the stars and the label show that rating, and that every stored review has a trimmed, non-blank name and text and a rating of 1 to 5. The constructor establishes `Valid()`, and `ClickStar`, `HandleSubmitReview`, `DeleteReview` and `ResetForm` preserve it. `SetRating` and `UpdateRatingText` are helpers that each update one part of the state (the stars, or the label) and have no `Valid()` contract, as in the source, where `setRating` alone leaves the label as it was. `generateStarDisplay` is a method with a loop, proved against `StarDisplay`. `deleteReview` filters with the same `FilterSpec` that specifies `myFilter`.
- **String helpers** (`js_text.dfy`, module `JsText`). `String.prototype.trim` uses ECMAScript's white-space and line-terminator characters. The plain decimal rendering of a natural number (what a template literal produces for integers below 10^21) has a read-back partner.
- **Quiz answer check** (`quiz.dfy`, module `Quiz`). This is the page's one fixed fact and `isCorrect`, which compares a guess with the answer's string form exactly.

`QuizApp/Quiz.js` holds only the `fact` constant and `isCorrect`. Its click-handler steps (lines 42-53) are unimplemented TODO comments, so there is no quiz session (score, cursor, restart) to model.

## Model

| member | source | states |
|---|---|---|
| `Polyfills.MyForEach` | Basics/polyfills.js:7-11 | the callback is invoked once per index, in ascending order 0..length-1, with (this[i], i); the method returns only that trace of calls and leaves the array unchanged |
| `Polyfills.ForEachCallsAt` | Basics/polyfills.js:8-10 | the forEach call trace has one entry per element, and entry i is the call with (a[i], i) |
| `Polyfills.ForEachDemoExample` | Basics/polyfills.js:39-41 | on [1..6] the callback sees indices 0 to 5 with values 1 to 6 |
| `Polyfills.MyMap` | Basics/polyfills.js:15-22 | the result has the input's length, holds userFn(this[i], i) at every index, and the input array is not modified |
| `Polyfills.MapSpecAt` | Basics/polyfills.js:17-20 | the map specification has the input's length, and element i is f(a[i], i) |
| `Polyfills.MapDemoExample` | Basics/polyfills.js:46-50 | the demo map of [1..6] yields [2, 2, 6, 4, 10, 6] |
| `Polyfills.MyFilter` | Basics/polyfills.js:26-34 | the result equals the filter specification, is no longer than the input, every element satisfies the predicate, and the input array is not modified |
| `Polyfills.FilterIndices` | Basics/polyfills.js:28-32 | the filter result is the subsequence of the input at strictly ascending indices, and those indices are exactly the ones whose element the predicate accepts |
| `Polyfills.FilterLength` | Basics/polyfills.js:27-33 | the filter result is never longer than the input |
| `Polyfills.FilterMembership` | Basics/polyfills.js:28-32 | a value is in the filter result iff it is in the input and the predicate accepts it |
| `Polyfills.FilterAllAccepted` | Basics/polyfills.js:28-33 | with a predicate that accepts every element, the result is a copy of the input |
| `Polyfills.FilterNoneAccepted` | Basics/polyfills.js:28-33 | with a predicate that rejects every element, the result is empty |
| `Polyfills.FilterEvensExample` | Basics/polyfills.js:55-58 | filtering [1..6] with "value % 2 === 0" yields [2, 4, 6] |
| `JsText.TrimStartCut` | review-system/script.js:61-62 | trimming the front removes exactly the maximal leading run of white space |
| `JsText.TrimEndCut` | review-system/script.js:61-62 | trimming the back removes exactly the maximal trailing run of white space |
| `JsText.TrimCut` | review-system/script.js:61-62 | trim yields a slice s[i..j] with only white space outside it, and a non-empty slice neither starts nor ends with white space |
| `JsText.TrimEmptyIffBlank` | review-system/script.js:61-62 | the trimmed value is empty (falsy) iff every character is white space |
| `JsText.TrimIdempotent` | review-system/script.js:61-62 | trimming an already trimmed value changes nothing |
| `JsText.DecimalRoundTrip` | review-system/script.js:48 | the rendered number is a non-empty digit string with no leading zero that reads back as the number |
| `ReviewSystem.ValidationOrder` | review-system/script.js:64-78 | a blank name is refused first, then a blank text, then a zero rating, and a submission passes iff none of these holds (both directions for each outcome) |
| `ReviewSystem.RatingLabelShowsRating` | review-system/script.js:46-52 | the label is "Select a rating" iff the rating is not positive; otherwise it is the rating's digits followed by "/5 stars selected", and the digits read back as the rating |
| `ReviewSystem.StarMarksAt` | review-system/script.js:146-152 | after n rounds of the star loop there are n marks, and the i-th (1-based) is filled iff i <= rating |
| `ReviewSystem.StarMarksFilledCount` | review-system/script.js:144-154 | after n rounds the number of filled marks is min(max(rating, 0), n) |
| `ReviewSystem.StarDisplayMatchesHighlight` | review-system/script.js:144-154 | a review card's filled marks are exactly the stars setRating highlights for the same rating |
| `ReviewSystem.GenerateStarDisplay` | review-system/script.js:144-154 | exactly 5 marks, the i-th (1-based) filled iff i <= rating, so min(max(rating, 0), 5) are filled |
| `ReviewSystem.RemoveByIdKeepsOthers` | review-system/script.js:159 | after deletion the list is the reviews at exactly the indices whose id differs, in their original order |
| `ReviewSystem.RemoveByIdMembership` | review-system/script.js:159 | after deletion no review carries the id, and every review with another id is still present |
| `ReviewSystem.RemoveAbsentId` | review-system/script.js:159 | deleting an id that no review carries leaves the list unchanged |
| `ReviewSystem.RemoveByIdIdempotent` | review-system/script.js:159 | deleting the same id twice is the same as deleting it once |
| `ReviewSystem.Widget.constructor` | review-system/script.js:1-2 | the widget starts with no rating, no reviews, grey stars, the "Select a rating" label and empty fields |
| `ReviewSystem.Widget.SetRating` | review-system/script.js:32-43 | currentRating becomes the rating, the stars with index below it are highlighted and all others grey, and nothing else changes |
| `ReviewSystem.Widget.UpdateRatingText` | review-system/script.js:46-52 | the label becomes the label for the rating, and nothing else changes |
| `ReviewSystem.Widget.ClickStar` | review-system/script.js:22-27 | clicking star `index` sets currentRating to index + 1, which lies in 1..5; stars and label follow it; reviews and fields are unchanged |
| `ReviewSystem.Widget.ResetForm` | review-system/script.js:166-172 | the fields are emptied, the rating becomes 0, every star is grey, the label is "Select a rating", and the reviews are unchanged |
| `ReviewSystem.Widget.HandleSubmitReview` | review-system/script.js:60-96 | the outcome is the first failing check (name, then text, then rating), and on failure nothing changes; on success exactly one review (trimmed name, trimmed text, current rating, given id and date) is put in front of the old list and the form is reset |
| `ReviewSystem.Widget.DeleteReview` | review-system/script.js:157-163 | when confirmed, every review with the id is removed and the rest keep their order; unconfirmed, nothing changes; the rating, stars, label and fields never change |
| `Quiz.BoolStringRoundTrip` | QuizApp/Quiz.js:39 | a boolean's string form reads back as that boolean |
| `Quiz.Matches` | QuizApp/Quiz.js:38-40 | a guess matches a fact iff it is exactly "true" or "false" and denotes the fact's answer |
| `Quiz.IsCorrect` | QuizApp/Quiz.js:16-40 | with the page's fact, whose answer is true, a guess is correct iff it is exactly "true"; as a function it only reads the constant fact and changes no state |
| `Quiz.IsCorrectExamples` | QuizApp/Quiz.js:38-40 | "true" is correct; "false", "True", "TRUE", " true" and "true " are not (no trimming, no case folding) |
| `Quiz.ExactlyOneOptionRight` | QuizApp/Quiz.js:39 | for either answer exactly one of "true" and "false" is judged correct, and "true" is correct iff the answer is true |

## Left out

- Rendering and DOM wiring are not modelled: element lookups, `displayReviews`, `createReviewCard`, the empty-state markup and the event-listener set-up (review-system/script.js:5-18, 99-141). The same goes for setting the quiz statement's text (QuizApp/Quiz.js:4-12, 23).
- The page markup is not part of this model. The widget assumes what that markup provides: five rating stars, all grey when the page loads, and the label "Select a rating".
- User text is put into the review cards' HTML without escaping (review-system/script.js:123, 133). This is a rendering concern outside the model.
- Star colours are booleans and the card's star marks are `Filled`/`Grey`. The CSS class names and `<span>` markup are not modelled.
- `alert` becomes the `Alert` outcome of `HandleSubmitReview`. `DeleteReview` returns no value for its "Review deleted!" alert, which appears exactly when the deletion is confirmed. `confirm` is the `confirmed` parameter.
- `Date.now()` and `toLocaleDateString()` become the `id` and `date` parameters. Ids are not assumed to be unique.
- JavaScript numbers are modelled as mathematical integers. Non-integer and non-finite ratings or ids are not modelled.
- `ReviewSystem.RatingLabel`, `ReviewSystem.Widget.UpdateRatingText` render a positive rating as plain decimal digits. JavaScript switches to exponent form from 10^21 on ("1e+21"), which the model does not reproduce; the page only ever passes ratings 1 to 5.
- `String.prototype.trim` uses ECMAScript's WhiteSpace and LineTerminator characters, with the Unicode space separators as of Unicode 15. Later Unicode additions are not modelled.
- Polyfill install guards, `this` binding, sparse arrays and holes, and callbacks that have side effects or change the array are not modelled. Callbacks are pure, total functions.
- `Polyfills.MyForEach` returns the trace of callback calls instead of `undefined`. With a pure callback, that trace is all the loop does.
- `Polyfills.MyMap`, `Polyfills.MyFilter` return a `seq` value instead of a freshly allocated array, so aliasing of the result is not modelled.
- The demo's `console.log` output is not modelled. The comment next to the map demo (Basics/polyfills.js:51) lists four elements, but the code yields six; `Polyfills.MapDemoExample` states what the code yields.
- The quiz page's `disable` and `enable` (QuizApp/Quiz.js:27-34) are thin attribute setters over the DOM and are not modelled. The click handlers (QuizApp/Quiz.js:42-53) are unimplemented in the source.
