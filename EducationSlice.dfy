/** The education slice: the resource catalogue, each resource with the users
    who completed it, and the ids the current user has completed. */
module EducationSlice {
  import opened Types
  import opened Seqs

  /** Index of the first resource with id `id`, or -1 (`find`). */
  function ResourceIndex(rs: seq<EducationResource>, id: string): (i: int)
    ensures -1 <= i < |rs|
    ensures 0 <= i ==> rs[i].id == id && forall j :: 0 <= j < i ==> rs[j].id != id
    ensures i == -1 <==> forall j :: 0 <= j < |rs| ==> rs[j].id != id
  {
    FindIndex(rs, (r: EducationResource) => r.id == id)
  }

  /** The guard of `markResourceAsCompleted`: the resource exists and `userId` has not completed it. */
  predicate CanMark(rs: seq<EducationResource>, resourceId: string, userId: string)
  {
    var i := ResourceIndex(rs, resourceId);
    i != -1 && userId !in rs[i].completedBy
  }

  /** The catalogue after `markResourceAsCompleted`. */
  function MarkedResources(rs: seq<EducationResource>, resourceId: string, userId: string): seq<EducationResource>
  {
    if CanMark(rs, resourceId, userId) then
      var i := ResourceIndex(rs, resourceId);
      rs[i := rs[i].(completedBy := rs[i].completedBy + [userId])]
    else rs
  }

  /** `userCompletedResources` after `markResourceAsCompleted`. */
  function MarkedCompletions(rs: seq<EducationResource>, done: seq<string>, resourceId: string, userId: string): seq<string>
  {
    if CanMark(rs, resourceId, userId) && resourceId !in done then done + [resourceId] else done
  }

  /** `setUserCompletedResources`: the ids of the resources `userId` completed, in catalogue order. */
  function CompletedIds(rs: seq<EducationResource>, userId: string): seq<string>
  {
    Map(Filter(rs, (r: EducationResource) => userId in r.completedBy), (r: EducationResource) => r.id)
  }

  function Ids(rs: seq<EducationResource>): seq<string>
  {
    Map(rs, (r: EducationResource) => r.id)
  }

  ghost predicate NoDuplicates(s: seq<string>)
  {
    forall i, j :: 0 <= i < j < |s| ==> s[i] != s[j]
  }

  /** Every resource `userId` completed is listed in `done`. */
  ghost predicate Covers(rs: seq<EducationResource>, done: seq<string>, userId: string)
  {
    forall j :: 0 <= j < |rs| && userId in rs[j].completedBy ==> rs[j].id in done
  }

  /** Marking changes at most the `completedBy` of the first resource with the id:
      the catalogue keeps its length and every other field of every resource. */
  lemma MarkKeepsShape(rs: seq<EducationResource>, resourceId: string, userId: string)
    ensures |MarkedResources(rs, resourceId, userId)| == |rs|
    ensures forall j :: 0 <= j < |rs| ==>
      MarkedResources(rs, resourceId, userId)[j].(completedBy := rs[j].completedBy) == rs[j]
    ensures forall j :: 0 <= j < |rs| && j != ResourceIndex(rs, resourceId) ==>
      MarkedResources(rs, resourceId, userId)[j] == rs[j]
  {
  }

  /** What a mark does when its guard holds, and that it does nothing otherwise. */
  lemma MarkEffect(rs: seq<EducationResource>, done: seq<string>, resourceId: string, userId: string)
    ensures CanMark(rs, resourceId, userId) ==>
      var i := ResourceIndex(rs, resourceId);
      && MarkedResources(rs, resourceId, userId)[i].completedBy == rs[i].completedBy + [userId]
      && resourceId in MarkedCompletions(rs, done, resourceId, userId)
    ensures CanMark(rs, resourceId, userId) && resourceId !in done ==>
      MarkedCompletions(rs, done, resourceId, userId) == done + [resourceId]
    ensures resourceId in done ==> MarkedCompletions(rs, done, resourceId, userId) == done
    ensures !CanMark(rs, resourceId, userId) ==>
      MarkedResources(rs, resourceId, userId) == rs && MarkedCompletions(rs, done, resourceId, userId) == done
    ensures ResourceIndex(rs, resourceId) == -1 ==> !CanMark(rs, resourceId, userId)
  {
    if CanMark(rs, resourceId, userId) && resourceId in done {
      assert resourceId in MarkedCompletions(rs, done, resourceId, userId);
    }
  }

  /** Repeating a mark with the same payload changes nothing. */
  lemma MarkIdempotent(rs: seq<EducationResource>, done: seq<string>, resourceId: string, userId: string)
    ensures var rs1 := MarkedResources(rs, resourceId, userId);
            var done1 := MarkedCompletions(rs, done, resourceId, userId);
            MarkedResources(rs1, resourceId, userId) == rs1 && MarkedCompletions(rs1, done1, resourceId, userId) == done1
  {
    var rs1 := MarkedResources(rs, resourceId, userId);
    if CanMark(rs, resourceId, userId) {
      var i := ResourceIndex(rs, resourceId);
      assert rs1[i].id == resourceId && forall j :: 0 <= j < i ==> rs1[j].id != resourceId;
      assert ResourceIndex(rs1, resourceId) == i;
      assert userId in rs1[i].completedBy;
    }
  }

  /** Marking never puts a duplicate into `userCompletedResources`. */
  lemma MarkKeepsNoDuplicates(rs: seq<EducationResource>, done: seq<string>, resourceId: string, userId: string)
    requires NoDuplicates(done)
    ensures NoDuplicates(MarkedCompletions(rs, done, resourceId, userId))
  {
  }

  /** `setUserCompletedResources` lists exactly the resources `userId` completed. */
  lemma {:induction false} CompletedIdsExact(rs: seq<EducationResource>, userId: string, id: string)
    ensures id in CompletedIds(rs, userId) <==>
      exists j :: 0 <= j < |rs| && rs[j].id == id && userId in rs[j].completedBy
  {
    var done := Filter(rs, (r: EducationResource) => userId in r.completedBy);
    var ids := CompletedIds(rs, userId);
    if id in ids {
      var k :| 0 <= k < |ids| && ids[k] == id;
      assert done[k] in done;
      var j :| 0 <= j < |rs| && rs[j] == done[k];
    }
    if exists j :: 0 <= j < |rs| && rs[j].id == id && userId in rs[j].completedBy {
      var j :| 0 <= j < |rs| && rs[j].id == id && userId in rs[j].completedBy;
      assert rs[j] in done;
      var k :| 0 <= k < |done| && done[k] == rs[j];
      assert ids[k] == id;
    }
  }

  /** `setUserCompletedResources` keeps catalogue order. */
  lemma CompletedIdsInCatalogueOrder(rs: seq<EducationResource>, userId: string)
    ensures IsSubsequence(CompletedIds(rs, userId), Ids(rs))
  {
    var p := (r: EducationResource) => userId in r.completedBy;
    FilterIsSubsequence(rs, p);
    MapKeepsSubsequence(Filter(rs, p), rs, (r: EducationResource) => r.id);
  }

  /** `setUserCompletedResources` establishes that every completion is listed. */
  lemma CompletedIdsCover(rs: seq<EducationResource>, userId: string)
    ensures Covers(rs, CompletedIds(rs, userId), userId)
  {
    forall j | 0 <= j < |rs| && userId in rs[j].completedBy
      ensures rs[j].id in CompletedIds(rs, userId)
    {
      CompletedIdsExact(rs, userId, rs[j].id);
    }
  }

  /** Marking, by any user, keeps every completion of `who` listed. */
  lemma MarkKeepsCovers(rs: seq<EducationResource>, done: seq<string>, resourceId: string, userId: string, who: string)
    requires Covers(rs, done, who)
    ensures Covers(MarkedResources(rs, resourceId, userId), MarkedCompletions(rs, done, resourceId, userId), who)
  {
    var rs1 := MarkedResources(rs, resourceId, userId);
    var done1 := MarkedCompletions(rs, done, resourceId, userId);
    forall j | 0 <= j < |rs1| && who in rs1[j].completedBy
      ensures rs1[j].id in done1
    {
      if CanMark(rs, resourceId, userId) && j == ResourceIndex(rs, resourceId) {
        assert rs1[j].id == resourceId;
        assert resourceId in done1;
        if who != userId {
          assert who in rs[j].completedBy;
        }
      } else {
        assert rs1[j] == rs[j];
      }
    }
  }

  /** When every completion of `userId` is listed, a mark of an existing resource leaves it
      listed as completed, so the page's `isCompleted` guard stops a second completion. */
  lemma MarkListsResource(rs: seq<EducationResource>, done: seq<string>, resourceId: string, userId: string)
    requires Covers(rs, done, userId)
    requires ResourceIndex(rs, resourceId) != -1
    ensures resourceId in MarkedCompletions(rs, done, resourceId, userId)
  {
    var i := ResourceIndex(rs, resourceId);
    if !CanMark(rs, resourceId, userId) {
      assert userId in rs[i].completedBy;
    }
  }

  class EducationState {
    var resources: seq<EducationResource>
    var userCompletedResources: seq<string>
    var isLoading: bool
    var error: Option<string>

    /** The initial state: a catalogue and no completions listed for the current user. */
    constructor (catalogue: seq<EducationResource>)
      ensures resources == catalogue && userCompletedResources == [] && !isLoading && error == None
    {
      resources := catalogue;
      userCompletedResources := [];
      isLoading := false;
      error := None;
    }

    /** `markResourceAsCompleted`: on a known resource that `userId` has not completed, appends
        `userId` to its `completedBy` and `resourceId` to the completed ids unless already there. */
    method MarkResourceAsCompleted(resourceId: string, userId: string)
      modifies this
      ensures resources == MarkedResources(old(resources), resourceId, userId)
      ensures userCompletedResources == MarkedCompletions(old(resources), old(userCompletedResources), resourceId, userId)
      ensures isLoading == old(isLoading) && error == old(error)
    {
      var i := ResourceIndex(resources, resourceId);
      if i != -1 && userId !in resources[i].completedBy {
        resources := resources[i := resources[i].(completedBy := resources[i].completedBy + [userId])];
        if resourceId !in userCompletedResources {
          userCompletedResources := userCompletedResources + [resourceId];
        }
      }
    }

    /** `setUserCompletedResources`: the completed ids become exactly `userId`'s completions. */
    method SetUserCompletedResources(userId: string)
      modifies this
      ensures userCompletedResources == CompletedIds(resources, userId)
      ensures resources == old(resources) && isLoading == old(isLoading) && error == old(error)
    {
      userCompletedResources := CompletedIds(resources, userId);
    }
  }
}
