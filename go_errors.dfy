/** Go error values as the service handlers inspect them: by their text, and
    by `errors.Is` against a freshly allocated `errors.New(...)` target. */
module GoErrors {

  /** A repository error. A fresh `errors.New` value is equal to nothing else,
      so `errors.Is` can succeed only through an `Is` method of the error
      itself; `Matching` models such an error by the target texts its `Is`
      method accepts. */
  datatype Error = Plain(text: string) | Matching(text: string, accepts: set<string>)

  /** `errors.Is(err, errors.New(target))`. */
  predicate IsFresh(err: Error, target: string) {
    err.Matching? && target in err.accepts
  }

  /** A plain error never matches a freshly allocated target. */
  lemma PlainNeverMatchesFresh(text: string, target: string)
    ensures !IsFresh(Plain(text), target)
  {
  }
}
