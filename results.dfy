/**
 * The build outcome that `BuildResult.Parse` produces from an inbound frame.
 * The parser itself is not part of this model: callers receive it as a
 * function `string -> BuildResult`.
 */
module Results {

  /** The five outcomes; `Other` is any frame the parser does not recognise. */
  datatype Outcome = Success | Failure | Unstable | Aborted | Other

  /**
   * A parsed build notification. `message` is the text that `ToMessage()`
   * renders for the balloon.
   */
  datatype BuildResult = BuildResult(outcome: Outcome, message: string)
  {
    predicate IsSuccess() { outcome == Success }
    predicate IsFailure() { outcome == Failure }
    predicate IsUnstable() { outcome == Unstable }
    predicate IsAborted() { outcome == Aborted }

    /** The balloon text. */
    function ToMessage(): string { message }

    /** The number of the four predicates that hold. */
    function PredicatesHolding(): (n: nat)
    {
      (if IsSuccess() then 1 else 0) + (if IsFailure() then 1 else 0)
      + (if IsUnstable() then 1 else 0) + (if IsAborted() then 1 else 0)
    }
  }

  /**
   * The two if-chains of the client check the predicates in different orders;
   * that is harmless because a recognised result satisfies exactly one of them
   * and an unrecognised one satisfies none.
   */
  lemma ExactlyOnePredicate(r: BuildResult)
    ensures r.PredicatesHolding() == (if r.outcome == Other then 0 else 1)
  {
  }
}
