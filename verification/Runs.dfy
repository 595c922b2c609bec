/** Building runs event by event. */
module Runs {
  import opened System

  /** The event is possible and leads to `s'`. */
  ghost predicate Steps(s: State, e: Event, s': State) {
    Enabled(s, e) && s' == Apply(s, e)
  }

  ghost predicate RunTo(ss: seq<State>, es: seq<Event>, s: State) {
    IsRun(ss, es) && ss[|es|] == s
  }

  lemma Extend(ss: seq<State>, es: seq<Event>, s: State, e: Event, s': State)
    requires RunTo(ss, es, s) && Steps(s, e, s')
    ensures RunTo(ss + [s'], es + [e], s')
  {
  }
}
