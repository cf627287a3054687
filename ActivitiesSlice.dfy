/** The activities slice: the activity log, newest entry first. */
module ActivitiesSlice {
  import opened Types

  /** The log after dispatching `addActivity` once for each entry of `added`, in order. */
  function AfterAdding(log: seq<ActivityLog>, added: seq<ActivityLog>): seq<ActivityLog>
    decreases |added|
  {
    if added == [] then log
    else [added[|added| - 1]] + AfterAdding(log, added[..|added| - 1])
  }

  /** However many entries are added, the earlier log survives, in order, as the suffix,
      and the newest entries come first in reverse order of addition. */
  lemma {:induction false} AddingKeepsLogAsSuffix(log: seq<ActivityLog>, added: seq<ActivityLog>)
    ensures |AfterAdding(log, added)| == |log| + |added|
    ensures AfterAdding(log, added)[|added|..] == log
    ensures forall i :: 0 <= i < |added| ==> AfterAdding(log, added)[i] == added[|added| - 1 - i]
    decreases |added|
  {
    if added != [] {
      var front := added[..|added| - 1];
      AddingKeepsLogAsSuffix(log, front);
      var r := AfterAdding(log, added);
      assert r == [added[|added| - 1]] + AfterAdding(log, front);
      assert r[|added|..] == AfterAdding(log, front)[|front|..];
      forall i | 1 <= i < |added|
        ensures r[i] == added[|added| - 1 - i]
      {
        assert r[i] == AfterAdding(log, front)[i - 1];
        assert front[|front| - 1 - (i - 1)] == added[|added| - 1 - i];
      }
    }
  }

  class ActivitiesState {
    var activities: seq<ActivityLog>
    var isLoading: bool
    var error: Option<string>

    /** The initial state: a given log, idle, no error. */
    constructor (log: seq<ActivityLog>)
      ensures activities == log && !isLoading && error == None
    {
      activities := log;
      isLoading := false;
      error := None;
    }

    /** `addActivity`: the entry goes to the front of the log. */
    method AddActivity(a: ActivityLog)
      modifies this
      ensures activities == AfterAdding(old(activities), [a])
      ensures activities == [a] + old(activities)
      ensures |activities| == |old(activities)| + 1
      ensures isLoading == old(isLoading) && error == old(error)
    {
      activities := [a] + activities;
      assert [a][..0] == [];
    }

    /** `getUserActivities`: filtering is left to the caller; the state is untouched. */
    method GetUserActivities(userId: string)
      ensures unchanged(this)
    {
    }
  }
}
