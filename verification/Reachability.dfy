/** What a run can lead to, when its attempts at each event obey a policy. */
module Reachability {
  import opened DealEngine
  import opened DealEngineRuns
  import opened Prelude

  ghost predicate Reaches(p: Policy, s: State, s': State) {
    exists run :: Legal(s, run) && OrderlyRun(p, s, run) && After(s, run) == s'
  }

  lemma Starts(p: Policy, s: State)
    ensures Reaches(p, s, s)
  {
    var run: seq<Action> := [];
    assert Legal(s, run) && OrderlyRun(p, s, run) && After(s, run) == s;
  }

  lemma Takes(p: Policy, s: State, a: Action)
    requires Enabled(s, a) && Orderly(p, s, a)
    ensures Reaches(p, s, Apply(s, a))
  {
    var run := [a];
    Starts(p, Apply(s, a));
    assert run[0] == a && run[1..] == [];
    assert Legal(s, run);
    assert OrderlyRun(p, s, run);
    assert After(s, run) == After(Apply(s, a), run[1..]);
  }

  lemma {:induction false} RunsOn(p: Policy, s: State, run: seq<Action>, more: seq<Action>)
    requires Legal(s, run) && Legal(After(s, run), more)
    requires OrderlyRun(p, s, run) && OrderlyRun(p, After(s, run), more)
    ensures Legal(s, run + more) && OrderlyRun(p, s, run + more)
    ensures After(s, run + more) == After(After(s, run), more)
    decreases |run|
  {
    if run == [] {
      assert run + more == more;
    } else {
      assert (run + more)[1..] == run[1..] + more;
      RunsOn(p, Apply(s, run[0]), run[1..], more);
    }
  }

  lemma Chains(p: Policy, s: State, s': State, s'': State)
    requires Reaches(p, s, s') && Reaches(p, s', s'')
    ensures Reaches(p, s, s'')
  {
    var run :| Legal(s, run) && OrderlyRun(p, s, run) && After(s, run) == s';
    var more :| Legal(s', more) && OrderlyRun(p, s', more) && After(s', more) == s'';
    RunsOn(p, s, run, more);
  }

  /** One more action. */
  lemma Goes(p: Policy, s: State, s': State, a: Action) returns (s'': State)
    requires Reaches(p, s, s') && Enabled(s', a) && Orderly(p, s', a)
    ensures Reaches(p, s, s'') && s'' == Apply(s', a)
  {
    s'' := Apply(s', a);
    Takes(p, s', a);
    Chains(p, s, s', s'');
  }

  lemma Ingests(p: Policy, s: State, s': State, w: Worker, step: IngestStep) returns (s'': State)
    requires Reaches(p, s, s') && IngestEnabled(s', w, step)
    ensures Reaches(p, s, s'') && s'' == IngestApply(s', w, step)
  {
    s'' := Goes(p, s, s', Ingesting(w, step));
  }

  lemma Envelopes(p: Policy, s: State, s': State, w: Worker, step: EnvelopeStep) returns (s'': State)
    requires Reaches(p, s, s') && EnvelopeEnabled(s', w, step) && Orderly(p, s', Enveloping(w, step))
    ensures Reaches(p, s, s'') && s'' == EnvelopeApply(s', w, step)
  {
    s'' := Goes(p, s, s', Enveloping(w, step));
  }

  lemma Taps(p: Policy, s: State, s': State, w: Worker, step: TapStep) returns (s'': State)
    requires Reaches(p, s, s') && TapEnabled(s', w, step)
    ensures Reaches(p, s, s'') && s'' == TapApply(s', w, step)
  {
    s'' := Goes(p, s, s', Tapping(w, step));
  }

  lemma Moves(p: Policy, s: State, s': State, d: Uuid, to: Status) returns (s'': State)
    requires Reaches(p, s, s') && CanMove(s', d, to)
    ensures Reaches(p, s, s'') && s'' == Move(s', d, to)
  {
    s'' := Goes(p, s, s', Moving(d, to));
  }
}
