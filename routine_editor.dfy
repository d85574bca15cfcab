/** The routine editor: the list of poses of a routine, reordered one
    step at a time, with poses removed, appended and their hold times
    adjusted, and the routine's total time kept as the sum of the holds. */
module RoutineEditor {
  import opened Types
  import Seqs

  const MinHold := 15
  const MaxHold := 300

  function Hold(p: Pose): int
  {
    p.durationDefault
  }

  /** `totalDuration`: the hold times added up, in seconds. With every
      hold in the editor's range, each pose adds 15 to 300 seconds. */
  function TotalDuration(poses: seq<Pose>): (total: int)
    ensures HoldsInRange(poses) ==> MinHold * |poses| <= total <= MaxHold * |poses|
  {
    assert HoldsInRange(poses) ==> MinHold * |poses| <= Seqs.SumOf(poses, Hold) <= MaxHold * |poses| by {
      if HoldsInRange(poses) {
        Seqs.SumOfBounds(poses, Hold, MinHold, MaxHold);
      }
    }
    Seqs.SumOf(poses, Hold)
  }

  datatype Direction = Up | Down

  /** `s` with the elements at `i` and `j` exchanged. */
  function Swap<T>(s: seq<T>, i: nat, j: nat): (r: seq<T>)
    requires i < |s| && j < |s|
    ensures |r| == |s| && r[i] == s[j] && r[j] == s[i]
    ensures forall k :: 0 <= k < |s| && k != i && k != j ==> r[k] == s[k]
  {
    s[i := s[j]][j := s[i]]
  }

  /** Exchanging two elements keeps the same elements. */
  lemma SwapPermutes<T>(s: seq<T>, i: nat, j: nat)
    requires i < |s| && j < |s|
    ensures multiset(Swap(s, i, j)) == multiset(s)
  {
    var t := s[i := s[j]];
    assert multiset(t) == multiset(s) - multiset{s[i]} + multiset{s[j]};
  }

  /** The list after one move: the pose changes places with its upper or
      lower neighbour, and a move past either end changes nothing. */
  function Moved(poses: seq<Pose>, index: nat, direction: Direction): seq<Pose>
    requires index < |poses|
  {
    if direction == Up && index > 0 then Swap(poses, index, index - 1)
    else if direction == Down && index < |poses| - 1 then Swap(poses, index, index + 1)
    else poses
  }

  /** `movePose`: copies the list and swaps in place on the copy. */
  method MovePose(poses: seq<Pose>, index: nat, direction: Direction) returns (newPoses: seq<Pose>)
    requires index < |poses|
    ensures newPoses == Moved(poses, index, direction)
  {
    var a := Seqs.CopyOf(poses);
    if direction == Up && index > 0 {
      a[index], a[index - 1] := a[index - 1], a[index];
    } else if direction == Down && index < a.Length - 1 {
      a[index], a[index + 1] := a[index + 1], a[index];
    }
    newPoses := a[..];
  }

  /** A move is a permutation of the list, and moving the first pose up
      or the last one down changes nothing. */
  lemma MovePermutes(poses: seq<Pose>, index: nat, direction: Direction)
    requires index < |poses|
    ensures var r := Moved(poses, index, direction);
      |r| == |poses| && multiset(r) == multiset(poses)
    ensures (direction == Up && index == 0) || (direction == Down && index == |poses| - 1) ==>
      Moved(poses, index, direction) == poses
  {
    if direction == Up && index > 0 {
      SwapPermutes(poses, index, index - 1);
    } else if direction == Down && index < |poses| - 1 {
      SwapPermutes(poses, index, index + 1);
    }
  }

  /** Moving a pose down and then moving it back up restores the list. */
  lemma DownThenUp(poses: seq<Pose>, index: nat)
    requires index + 1 < |poses|
    ensures Moved(Moved(poses, index, Down), index + 1, Up) == poses
  {
  }

  /** A move leaves the total time as it was. */
  lemma MoveKeepsTotal(poses: seq<Pose>, index: nat, direction: Direction)
    requires index < |poses|
    ensures TotalDuration(Moved(poses, index, direction)) == TotalDuration(poses)
  {
    MovePermutes(poses, index, direction);
    Seqs.SumOfPermutation(Moved(poses, index, direction), poses, Hold);
  }

  /** `removePose`: every pose but the one at `index`, in order; an index
      outside the list removes nothing. */
  function RemovePose(poses: seq<Pose>, index: int): (r: seq<Pose>)
    ensures !(0 <= index < |poses|) ==> r == poses
    ensures 0 <= index < |poses| ==>
      && |r| == |poses| - 1
      && (forall j :: 0 <= j < index ==> r[j] == poses[j])
      && (forall j :: index <= j < |r| ==> r[j] == poses[j + 1])
  {
    if 0 <= index < |poses| then poses[..index] + poses[index + 1..] else poses
  }

  /** Removing a pose takes its hold time off the total. */
  lemma RemoveTotal(poses: seq<Pose>, index: nat)
    requires index < |poses|
    ensures TotalDuration(RemovePose(poses, index)) == TotalDuration(poses) - poses[index].durationDefault
  {
    Seqs.SumOfRemove(poses, index, Hold);
  }

  /** `addPose`: the pose goes at the end. */
  function AddPose(poses: seq<Pose>, pose: Pose): (r: seq<Pose>)
    ensures |r| == |poses| + 1 && r[..|poses|] == poses && r[|poses|] == pose
  {
    poses + [pose]
  }

  /** Adding a pose adds its hold time to the total, and removing it
      again gives back the list. */
  lemma AddTotal(poses: seq<Pose>, pose: Pose)
    ensures TotalDuration(AddPose(poses, pose)) == TotalDuration(poses) + pose.durationDefault
    ensures RemovePose(AddPose(poses, pose), |poses|) == poses
  {
    Seqs.SumOfAppend(poses, [pose], Hold);
    assert Seqs.SumOf([pose], Hold) == pose.durationDefault + Seqs.SumOf([pose][1..], Hold);
  }

  /** `updateDuration`: a hold time from 15 to 300 seconds replaces the
      pose's own on a copy of the list; any other value is ignored. */
  method UpdateDuration(poses: seq<Pose>, index: nat, newDuration: int) returns (newPoses: seq<Pose>)
    requires index < |poses|
    ensures newDuration < MinHold || newDuration > MaxHold ==> newPoses == poses
    ensures MinHold <= newDuration <= MaxHold ==>
      newPoses == poses[index := poses[index].(durationDefault := newDuration)]
  {
    if newDuration < MinHold || newDuration > MaxHold {
      return poses;
    }
    var a := Seqs.CopyOf(poses);
    a[index] := a[index].(durationDefault := newDuration);
    newPoses := a[..];
  }

  predicate HoldsInRange(poses: seq<Pose>)
  {
    forall i :: 0 <= i < |poses| ==> MinHold <= poses[i].durationDefault <= MaxHold
  }

  /** An accepted adjustment changes the total by the difference of the
      two hold times, and a list whose holds are all in range stays so. */
  lemma UpdateTotal(poses: seq<Pose>, index: nat, newDuration: int)
    requires index < |poses| && MinHold <= newDuration <= MaxHold
    ensures var r := poses[index := poses[index].(durationDefault := newDuration)];
      && TotalDuration(r) == TotalDuration(poses) - poses[index].durationDefault + newDuration
      && (HoldsInRange(poses) ==> HoldsInRange(r))
  {
    var r := poses[index := poses[index].(durationDefault := newDuration)];
    Seqs.SumOfRemove(poses, index, Hold);
    Seqs.SumOfRemove(r, index, Hold);
    assert r[..index] + r[index + 1..] == poses[..index] + poses[index + 1..];
  }

  /** The routine handed on by 'Praticar': the edited poses with their
      total time. */
  function SaveAndPlay(routine: Routine, poses: seq<Pose>): (r: Routine)
    ensures r.poses == poses && r.totalDuration == TotalDuration(poses)
    ensures r.id == routine.id && r.name == routine.name
  {
    routine.(poses := poses, totalDuration := TotalDuration(poses))
  }
}
