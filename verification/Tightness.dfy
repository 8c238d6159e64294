/** The corroboration bound is attained: one camera, three frames half a second
    apart, and an event half a second after its region appeared. */
module Tightness {
  import opened Boxes
  import opened Cadence
  import opened Common
  import opened Config
  import opened Corroboration
  import opened Evidence
  import opened EvidenceRuns
  import opened History

  const SPOT := Box(0.0, 0.0, 1.0, 1.0)

  function Footage(): seq<Frame> {
    [Frame(0.0, [], []), Frame(0.5, [SPOT], [1.0]), Frame(1.0, [SPOT], [1.0])]
  }

  lemma NothingSeen(t: real)
    ensures Step(DEPLOYED, EMPTY, t, [], []) == Outcome(State([], Some(t), 0), [])
  {
  }

  lemma FootageFires()
    ensures FiredAt(DEPLOYED, Footage(), 0) == [] && FiredAt(DEPLOYED, Footage(), 1) == []
    ensures |FiredAt(DEPLOYED, Footage(), 2)| == 1 && FiredAt(DEPLOYED, Footage(), 2)[0].firstT == 0.5
  {
    hide Step, Iou, Smooth;
    var frames := Footage();
    NothingSeen(0.0);
    var s1 := After(DEPLOYED, frames, 1);
    assert s1 == StepOn(DEPLOYED, After(DEPLOYED, frames, 0), frames[0]).state == State([], Some(0.0), 0);
    StepFromNothing(DEPLOYED, s1, 0.5, SPOT, 1.0);
    var s2 := After(DEPLOYED, frames, 2);
    assert s2 == StepOn(DEPLOYED, s1, frames[1]).state;
    assert s2.regions == [Created(0, 0.5, 0.5, SPOT, 1.0)];
    IouLaws(SPOT, SPOT);
    StepFromOne(DEPLOYED, s2, 1.0, SPOT, 1.0);
    assert FiredAt(DEPLOYED, frames, 2) == StepOn(DEPLOYED, s2, frames[2]).fired;
  }

  function Shown(n: nat): (seen: seq<Observation<int>>)
    requires n <= 3
    ensures |seen| == n && forall i :: 0 <= i < n ==> seen[i] == Observation(7, 0, Footage()[i])
  {
    seq(n, i requires 0 <= i < n => Observation(7, 0, Footage()[i]))
  }

  function Ops(): (ops: seq<Op<int>>)
    ensures |ops| == 3 && forall i :: 0 <= i < 3 ==> ops[i] == Observe(0, Shown(3)[i])
  {
    seq(3, i requires 0 <= i < 3 => Observe(0, Shown(3)[i]))
  }

  lemma {:induction false} ShownIsRecent(n: nat)
    requires n <= 3
    ensures Recent(Ops(), n, 0) == Shown(n)
  {
    if n > 0 {
      ShownIsRecent(n - 1);
      assert Shown(n) == Shown(n - 1) + [Shown(3)[n - 1]];
      assert n > 1 ==> Continues(Shown(n - 1)[n - 2], Shown(3)[n - 1]);
    }
  }

  /** The run meets every assumption made of runs, and the event comes at exactly
      half a second: no larger age can be promised. */
  lemma HalfSecondIsAttained()
    ensures var seen := Frames(Recent(Ops(), 3, 0)); TimesAscend(seen) && ConfsWithin(seen, 1.0)
    ensures exists r :: r in FiredOn(Ops(), 2) && Ops()[2].seen.frame.t - r.firstT == 0.5
  {
    hide FiredOn, FiredAt, Recent;
    ShownIsRecent(3);
    FiredOnRecent(Ops(), 2);
    assert Frames(Shown(3)) == Footage();
    FootageFires();
    assert FiredAt(DEPLOYED, Footage(), 2)[0] in FiredOn(Ops(), 2);
  }
}
