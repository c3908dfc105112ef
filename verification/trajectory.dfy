/** The flat-array form of a trajectory that crosses the Java/C++ boundary:
    every state becomes seven consecutive numbers, and the inverse reads them
    back seven at a time. */
module TrajectoryElements {
  import opened Wrappers

  /** A pose on the field. The heading is the rotation in radians, taken as an
      already-normalised real (the trigonometric normalisation of a rotation
      is not modelled). */
  datatype Pose2d = Pose2d(x: real, y: real, heading: real)

  /** One time-stamped sample of a trajectory. */
  datatype State = State(
    t: real,
    velocity: real,
    acceleration: real,
    pose: Pose2d,
    curvature: real)

  datatype Trajectory = Trajectory(states: seq<State>)

  datatype CodecError = ElementCountNotMultipleOfSeven(count: nat)

  /** Number of doubles each state occupies in the flat form. */
  const ElementsPerState: nat := 7

  /** The field order of one state in the flat form: time, velocity,
      acceleration, pose x, pose y, heading in radians, curvature. */
  function StateElements(s: State): (e: seq<real>)
    ensures |e| == ElementsPerState
  {
    [s.t, s.velocity, s.acceleration, s.pose.x, s.pose.y, s.pose.heading, s.curvature]
  }

  /** Rebuilds one state from its seven numbers. */
  function StateFromElements(e: seq<real>): (s: State)
    requires |e| == ElementsPerState
    ensures StateElements(s) == e
  {
    State(e[0], e[1], e[2], Pose2d(e[3], e[4], e[5]), e[6])
  }

  /** The seven numbers of a state determine it. */
  lemma StateElementsInjective(s1: State, s2: State)
    ensures StateElements(s1) == StateElements(s2) <==> s1 == s2
  {
    if StateElements(s1) == StateElements(s2) {
      var e1, e2 := StateElements(s1), StateElements(s2);
      assert e1[0] == e2[0] && e1[1] == e2[1] && e1[2] == e2[2];
      assert e1[3] == e2[3] && e1[4] == e2[4] && e1[5] == e2[5] && e1[6] == e2[6];
    }
  }

  /** Block k of a flat array: the seven numbers of state k. */
  function Block(e: seq<real>, k: nat): seq<real>
    requires ElementsPerState * k + ElementsPerState <= |e|
  {
    e[ElementsPerState * k .. ElementsPerState * k + ElementsPerState]
  }

  /** Flattens a trajectory, state after state, into 7 * N numbers. */
  function GetElementsFromTrajectory(trajectory: Trajectory): (e: seq<real>)
    ensures |e| == ElementsPerState * |trajectory.states|
    ensures forall k :: 0 <= k < |trajectory.states| ==>
              Block(e, k) == StateElements(trajectory.states[k])
    decreases |trajectory.states|
  {
    var states := trajectory.states;
    if states == [] then []
    else
      var head := StateElements(states[0]);
      var rest := GetElementsFromTrajectory(Trajectory(states[1..]));
      assert forall k :: 1 <= k < |states| ==> Block(head + rest, k) == Block(rest, k - 1);
      head + rest
  }

  /** Reads a flat array whose length is a multiple of seven back into states. */
  function StatesFromElements(e: seq<real>): (states: seq<State>)
    requires |e| % ElementsPerState == 0
    ensures |states| == |e| / ElementsPerState
    ensures forall k :: 0 <= k < |states| ==> StateElements(states[k]) == Block(e, k)
    decreases |e|
  {
    if e == [] then []
    else
      var rest := e[ElementsPerState..];
      var tail := StatesFromElements(rest);
      assert forall k :: 1 <= k <= |tail| ==> Block(e, k) == Block(rest, k - 1);
      [StateFromElements(e[..ElementsPerState])] + tail
  }

  /** Builds a trajectory from a flat array; an array whose length is not a
      multiple of seven is refused instead of being read past its end. */
  function CreateTrajectoryFromElements(elements: seq<real>): (r: Result<Trajectory, CodecError>)
    ensures r.Success? <==> |elements| % ElementsPerState == 0
    ensures r.Failure? ==> r.error == ElementCountNotMultipleOfSeven(|elements|)
    ensures r.Success? ==> |r.value.states| == |elements| / ElementsPerState
    ensures r.Success? ==>
              forall k :: 0 <= k < |r.value.states| ==>
                StateElements(r.value.states[k]) == Block(elements, k)
  {
    if |elements| % ElementsPerState != 0 then Failure(ElementCountNotMultipleOfSeven(|elements|))
    else Success(Trajectory(StatesFromElements(elements)))
  }

  /** Flattening places the fields of state k at offsets 7k to 7k + 6 in the
      order time, velocity, acceleration, x, y, heading, curvature. */
  lemma FlattenedFieldOrder(trajectory: Trajectory, k: nat)
    requires k < |trajectory.states|
    ensures var e, s, i := GetElementsFromTrajectory(trajectory), trajectory.states[k], ElementsPerState * k;
            && i + 6 < |e|
            && e[i] == s.t && e[i + 1] == s.velocity && e[i + 2] == s.acceleration
            && e[i + 3] == s.pose.x && e[i + 4] == s.pose.y && e[i + 5] == s.pose.heading
            && e[i + 6] == s.curvature
  {
    var e, i := GetElementsFromTrajectory(trajectory), ElementsPerState * k;
    var b := Block(e, k);
    assert b == StateElements(trajectory.states[k]);
    assert e[i] == b[0] && e[i + 1] == b[1] && e[i + 2] == b[2] && e[i + 3] == b[3];
    assert e[i + 4] == b[4] && e[i + 5] == b[5] && e[i + 6] == b[6];
  }

  /** Unflattening builds state k from offsets 7k to 7k + 6, read in the same
      field order. */
  lemma UnflattenedFieldOrder(elements: seq<real>, k: nat)
    requires |elements| % ElementsPerState == 0
    requires ElementsPerState * k < |elements|
    ensures CreateTrajectoryFromElements(elements).Success?
    ensures var s, i := CreateTrajectoryFromElements(elements).value.states[k], ElementsPerState * k;
            && s.t == elements[i] && s.velocity == elements[i + 1] && s.acceleration == elements[i + 2]
            && s.pose == Pose2d(elements[i + 3], elements[i + 4], elements[i + 5])
            && s.curvature == elements[i + 6]
  {
    var states := CreateTrajectoryFromElements(elements).value.states;
    var i := ElementsPerState * k;
    assert k < |states|;
    var b := Block(elements, k);
    assert StateElements(states[k]) == b;
    assert elements[i] == b[0] && elements[i + 1] == b[1] && elements[i + 2] == b[2] && elements[i + 3] == b[3];
    assert elements[i + 4] == b[4] && elements[i + 5] == b[5] && elements[i + 6] == b[6];
  }

  /** Two flat arrays of the same whole number of states agree when every
      block of seven does. */
  lemma {:induction false} BlocksDetermineElements(e1: seq<real>, e2: seq<real>, n: nat)
    requires |e1| == |e2| == ElementsPerState * n
    requires forall k :: 0 <= k < n ==> Block(e1, k) == Block(e2, k)
    ensures e1 == e2
  {
    forall i | 0 <= i < |e1|
      ensures e1[i] == e2[i]
    {
      var k := i / ElementsPerState;
      assert ElementsPerState * k <= i < ElementsPerState * k + ElementsPerState;
      assert e1[i] == Block(e1, k)[i - ElementsPerState * k];
      assert e2[i] == Block(e2, k)[i - ElementsPerState * k];
    }
  }

  /** Unflattening a flattened trajectory gives the trajectory back. */
  lemma {:induction false} CreateAfterGetElements(trajectory: Trajectory)
    ensures CreateTrajectoryFromElements(GetElementsFromTrajectory(trajectory)) == Success(trajectory)
  {
    var e := GetElementsFromTrajectory(trajectory);
    var r := CreateTrajectoryFromElements(e);
    assert |e| % ElementsPerState == 0;
    var states := r.value.states;
    forall k | 0 <= k < |states|
      ensures states[k] == trajectory.states[k]
    {
      StateElementsInjective(states[k], trajectory.states[k]);
    }
    assert states == trajectory.states;
  }

  /** Flattening an unflattened array gives the array back. */
  lemma {:induction false} GetElementsAfterCreate(elements: seq<real>)
    requires |elements| % ElementsPerState == 0
    ensures CreateTrajectoryFromElements(elements).Success?
    ensures GetElementsFromTrajectory(CreateTrajectoryFromElements(elements).value) == elements
  {
    var trajectory := CreateTrajectoryFromElements(elements).value;
    var e := GetElementsFromTrajectory(trajectory);
    var n := |trajectory.states|;
    BlocksDetermineElements(e, elements, n);
  }

  /** Flattening is a homomorphism: the flat form of two trajectories joined
      end to end is the two flat forms joined. */
  lemma {:induction false} GetElementsOfConcatenation(a: seq<State>, b: seq<State>)
    ensures GetElementsFromTrajectory(Trajectory(a + b))
         == GetElementsFromTrajectory(Trajectory(a)) + GetElementsFromTrajectory(Trajectory(b))
  {
    var e := GetElementsFromTrajectory(Trajectory(a + b));
    var ea, eb := GetElementsFromTrajectory(Trajectory(a)), GetElementsFromTrajectory(Trajectory(b));
    forall k | 0 <= k < |a| + |b|
      ensures Block(e, k) == Block(ea + eb, k)
    {
      BlockOfJoin(ea, eb, |a|, k);
      if k < |a| {
        assert (a + b)[k] == a[k];
      } else {
        assert (a + b)[k] == b[k - |a|];
      }
    }
    BlocksDetermineElements(e, ea + eb, |a| + |b|);
  }

  /** Block k of two flat arrays joined, the first holding n states, is block
      k of the first array or block k - n of the second. */
  lemma BlockOfJoin(x: seq<real>, y: seq<real>, n: nat, k: nat)
    requires |x| == ElementsPerState * n
    requires ElementsPerState * k + ElementsPerState <= |x| + |y|
    ensures k < n ==> Block(x + y, k) == Block(x, k)
    ensures k >= n ==> Block(x + y, k) == Block(y, k - n)
  {
  }
}
