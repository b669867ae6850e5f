/** Runs in which one process makes every step. */
module Runs {
  import opened Processes
  import opened Invariants
  import opened Effects
  import opened Consistency

  ghost predicate ByItself(es: seq<Event>, p: Pid) {
    forall i :: 0 <= i < |es| ==> es[i] == Continue(p)
  }

  /** `p` begins the operation and runs until it returns; nobody else makes a step. */
  ghost predicate RunsAlone(s: State, p: Pid, op: Op, es: seq<Event>) {
    && es != [] && es[0] == Begin(p, op) && ByItself(es[1..], p)
    && CanRun(s, es) && p !in Run(s, es).procs
  }

  lemma OneStep(s: State, p: Pid) returns (t: State)
    requires Inv(s) && p in s.procs && CanStep(s, p)
    ensures Inv(t) && Kept(s, t, p) && t == Apply(s, Continue(p)) == ProcStep(s, p)
  {
    hide Inv, Good;
    EventKeepsAll(s, Continue(p));
    t := Apply(s, Continue(p));
  }

  lemma NothingRuns(s: State, p: Pid)
    ensures ByItself([], p) && CanRun(s, []) && Run(s, []) == s
  {
  }

  /** The stage of its operation from which `p` made the last of the steps. */
  ghost predicate EndsFrom(s: State, es: seq<Event>, p: Pid, c: Proc)
    requires CanRun(s, es)
    decreases |es|
  {
    && es != []
    && if |es| == 1 then es == [Continue(p)] && p in s.procs && s.procs[p] == c
       else EndsFrom(Apply(s, es[0]), es[1..], p, c)
  }

  lemma StepFirst(s: State, p: Pid, es: seq<Event>) returns (fs: seq<Event>)
    requires p in s.procs && CanStep(s, p) && CanRun(ProcStep(s, p), es) && ByItself(es, p)
    ensures ByItself(fs, p) && CanRun(s, fs) && Run(s, fs) == Run(ProcStep(s, p), es)
    ensures es == [] ==> EndsFrom(s, fs, p, s.procs[p])
    ensures forall c :: EndsFrom(ProcStep(s, p), es, p, c) ==> EndsFrom(s, fs, p, c)
  {
    hide ProcStep, CanStep;
    fs := [Continue(p)] + es;
    assert fs[1..] == es;
  }

  lemma BeginFirst(s: State, p: Pid, op: Op, es: seq<Event>) returns (fs: seq<Event>)
    requires MayBegin(s, p, op) && CanRun(BeginStep(s, p, op), es) && ByItself(es, p)
    requires p !in Run(BeginStep(s, p, op), es).procs
    ensures CanRun(s, fs) && RunsAlone(s, p, op, fs) && Run(s, fs) == Run(BeginStep(s, p, op), es)
    ensures forall c :: EndsFrom(BeginStep(s, p, op), es, p, c) ==> EndsFrom(s, fs, p, c)
  {
    hide MayBegin, BeginStep;
    fs := [Begin(p, op)] + es;
    assert fs[1..] == es;
  }

  /** What a process does by itself until it has returned is determined. */
  lemma {:induction false} SameSteps(s: State, p: Pid, es: seq<Event>, fs: seq<Event>)
    requires ByItself(es, p) && CanRun(s, es) && p !in Run(s, es).procs
    requires ByItself(fs, p) && CanRun(s, fs) && p !in Run(s, fs).procs
    ensures es == fs
    decreases |es|
  {
    hide ProcStep, CanStep;
    if es == [] || fs == [] {
      assert es == fs == [];
    } else {
      SameSteps(ProcStep(s, p), p, es[1..], fs[1..]);
      assert es == [es[0]] + es[1..] && fs == [fs[0]] + fs[1..];
    }
  }

  lemma SameRun(s: State, p: Pid, op: Op, es: seq<Event>, fs: seq<Event>)
    requires RunsAlone(s, p, op, es) && RunsAlone(s, p, op, fs)
    ensures es == fs
  {
    hide ByItself, BeginStep, MayBegin;
    SameSteps(BeginStep(s, p, op), p, es[1..], fs[1..]);
    assert es == [es[0]] + es[1..] && fs == [fs[0]] + fs[1..];
  }

  lemma {:induction false} ReachableRunsOn(s: State, es: seq<Event>)
    requires Reachable(s) && CanRun(s, es)
    ensures Reachable(Run(s, es))
    decreases |es|
  {
    hide Reachable, Apply, Enabled;
    if es != [] {
      ReachableGoesOn(s, es[0]);
      ReachableRunsOn(Apply(s, es[0]), es[1..]);
    }
  }
}
