/** Building runs of the loop one step at a time. */
module Runs {
  import opened Loop

  /** One more step at the end of a legal run. */
  lemma Extends(cfg: Config, s: State, steps: seq<Step>, step: Step)
    requires Legal(cfg, s, steps) && Enabled(cfg, Run(cfg, s, steps), step)
    ensures Legal(cfg, s, steps + [step]) && Run(cfg, s, steps + [step]) == Apply(cfg, Run(cfg, s, steps), step)
  {
    hide Apply, Enabled;
    assert (steps + [step])[..|steps|] == steps;
  }

  ghost predicate Reaches(cfg: Config, from: State, to: State) {
    exists steps :: Legal(cfg, from, steps) && Run(cfg, from, steps) == to
  }

  lemma ReachesItself(cfg: Config, s: State)
    ensures Reaches(cfg, s, s)
  {
    assert Run(cfg, s, []) == s;
  }

  lemma ReachesNext(cfg: Config, from: State, to: State, step: Step)
    requires Reaches(cfg, from, to) && Enabled(cfg, to, step)
    ensures Reaches(cfg, from, Apply(cfg, to, step))
  {
    var steps :| Legal(cfg, from, steps) && Run(cfg, from, steps) == to;
    Extends(cfg, from, steps, step);
  }
}
