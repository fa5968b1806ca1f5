/** Runs of a step system: the sequence of its steps, last step outermost, each
    with the state it leads to. What makes a run legal is up to the system. */
module Runs {

  datatype Run<S, T> = Start(first: S) | Then(before: Run<S, T>, step: T, after: S) {
    function End(): S {
      if Start? then first else after
    }
  }

  /** `r'` continues `r`. */
  ghost predicate Extends<S(!new), T(!new)>(r: Run<S, T>, r': Run<S, T>) {
    r == r' || (r'.Then? && Extends(r, r'.before))
  }
}
