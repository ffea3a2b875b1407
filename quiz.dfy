/**
 * The true/false fact of the quiz page and its answer check. The page builds
 * no quiz session: there is one fixed fact and one predicate on guesses.
 */
module Quiz {

  datatype Option<T> = None | Some(value: T)

  /** A true/false claim with its ground truth and the explanation shown after a guess. */
  datatype Fact = Fact(statement: string, answer: bool, explanation: string)

  /** The page's one fact; its answer is `true`. */
  const TheFact: Fact := Fact(
    "In JavaScript, null is considered equal to undefined when using the == operator.",
    true,
    "In JavaScript, the loose equality operator (==) performs type coercion, which means null == undefined evaluates to true because both represent the absence of a value. However, with the strict equality operator (===), null !== undefined because they are different types (null is an object-like value, while undefined is its own type)."
  )

  /** Boolean.prototype.toString. */
  function BoolToString(b: bool): string
  {
    if b then "true" else "false"
  }

  /** Reads a guess as a boolean: only the exact strings "true" and "false" denote one. */
  function ParseBool(s: string): Option<bool>
  {
    if s == "true" then Some(true) else if s == "false" then Some(false) else None
  }

  /** Rendering a boolean and reading it back gives the boolean. */
  lemma BoolStringRoundTrip(b: bool)
    ensures ParseBool(BoolToString(b)) == Some(b)
  {
  }

  /**
   * `guess === fact.answer.toString()` for a given fact: the guess is judged
   * right exactly when it reads as the fact's answer.
   */
  function Matches(fact: Fact, guess: string): (r: bool)
    ensures r <==> ParseBool(guess) == Some(fact.answer)
  {
    guess == BoolToString(fact.answer)
  }

  /** isCorrect: compares a guess with the page's fact, whose answer is true. */
  function IsCorrect(guess: string): (r: bool)
    ensures r <==> guess == "true"
  {
    Matches(TheFact, guess)
  }

  /**
   * The comparison is exact: "true" is right, and "false", a different case
   * or surrounding white space is wrong.
   */
  lemma IsCorrectExamples()
    ensures IsCorrect("true")
    ensures !IsCorrect("false")
    ensures !IsCorrect("True") && !IsCorrect("TRUE")
    ensures !IsCorrect(" true") && !IsCorrect("true ")
  {
  }

  /** Whatever the fact's answer, exactly one of "true" and "false" is judged right. */
  lemma ExactlyOneOptionRight(fact: Fact)
    ensures Matches(fact, "true") != Matches(fact, "false")
    ensures Matches(fact, "true") <==> fact.answer
  {
  }
}
