/** The page of one education resource: looking the resource up, whether the
    current user has completed it, and the "mark as completed" handler. */
module EducationResourcePage {
  import opened Types
  import opened AuthSlice
  import opened EducationSlice
  import opened AppStore

  /** The resource shown for an id: the first one with that id, if any. */
  function FindResource(rs: seq<EducationResource>, id: string): (r: Option<EducationResource>)
    ensures r.None? <==> forall j :: 0 <= j < |rs| ==> rs[j].id != id
    ensures r.Some? ==> r.value.id == id && r.value in rs
    ensures r.Some? ==> r.value == rs[ResourceIndex(rs, id)]
  {
    var i := ResourceIndex(rs, id);
    if i == -1 then None else Some(rs[i])
  }

  /** The page shows the resource as completed when its id is among the completed ids. */
  predicate IsCompleted(done: seq<string>, id: string)
  {
    id in done
  }

  /** The activity logged for completing a resource. */
  function CompletionLog(u: User, r: EducationResource, id: string, now: int): (a: ActivityLog)
    ensures a.userId == u.id && a.kind == EducationActivity && a.points == r.points
  {
    ActivityLog(id, u.id, EducationActivity, r.points, "Completed \"" + r.title + "\"", now)
  }

  /** Whether the handler does anything: a resource was found, someone is logged in,
      the resource is not shown as completed and no completion is in progress. */
  predicate MayComplete(found: Option<EducationResource>, user: Option<User>, done: seq<string>,
                        resourceId: string, completing: bool)
  {
    found.Some? && user.Some? && !IsCompleted(done, resourceId) && !completing
  }

  /** When the completed ids cover the user's completions, a resource the user already
      completed is shown as completed, so the handler awards nothing for it. */
  lemma CompletedResourceIsBlocked(rs: seq<EducationResource>, done: seq<string>, u: User, resourceId: string, completing: bool)
    requires Covers(rs, done, u.id)
    requires FindResource(rs, resourceId).Some? && u.id in FindResource(rs, resourceId).value.completedBy
    ensures !MayComplete(FindResource(rs, resourceId), Some(u), done, resourceId, completing)
  {
    var i := ResourceIndex(rs, resourceId);
    assert rs[i] == FindResource(rs, resourceId).value;
  }

  class EducationResourcePageState {
    const resourceId: string
    var isCompleting: bool

    constructor (id: string)
      ensures resourceId == id && !isCompleting
    {
      resourceId := id;
      isCompleting := false;
    }

    /** `handleMarkAsCompleted`: unless blocked, marks the resource completed for the user,
        puts an education activity worth the resource's points first in the log and credits
        exactly those points. */
    method HandleMarkAsCompleted(store: Store, activityId: string, now: int)
      modifies this, store.education, store.activities, store.auth
      ensures !MayComplete(old(FindResource(store.education.resources, resourceId)), old(store.auth.user),
                           old(store.education.userCompletedResources), resourceId, old(isCompleting)) ==>
        && unchanged(this) && unchanged(store.education) && unchanged(store.activities) && unchanged(store.auth)
      ensures MayComplete(old(FindResource(store.education.resources, resourceId)), old(store.auth.user),
                          old(store.education.userCompletedResources), resourceId, old(isCompleting)) ==>
        var r := old(FindResource(store.education.resources, resourceId)).value;
        var u := old(store.auth.user).value;
        && !isCompleting
        && store.education.resources == MarkedResources(old(store.education.resources), r.id, u.id)
        && store.education.userCompletedResources ==
             MarkedCompletions(old(store.education.resources), old(store.education.userCompletedResources), r.id, u.id)
        && (old(Covers(store.education.resources, store.education.userCompletedResources, u.id)) ==>
              && resourceId in store.education.userCompletedResources
              && Covers(store.education.resources, store.education.userCompletedResources, u.id))
        && store.activities.activities == [CompletionLog(u, r, activityId, now)] + old(store.activities.activities)
        && store.auth.user.Some?
        && store.auth.user.value.points == u.points + r.points
        && store.auth.user.value.level == Level(store.auth.user.value.points)
        && store.auth.user.value.(points := u.points, level := u.level) == u
        && store.auth.isLoading == old(store.auth.isLoading) && store.auth.error == old(store.auth.error)
        && store.education.isLoading == old(store.education.isLoading)
        && store.education.error == old(store.education.error)
        && store.activities.isLoading == old(store.activities.isLoading)
        && store.activities.error == old(store.activities.error)
    {
      var resource := FindResource(store.education.resources, resourceId);
      if resource.None? {
        return;
      }
      var isCompleted := IsCompleted(store.education.userCompletedResources, resourceId);
      if store.auth.user.None? || isCompleted || isCompleting {
        return;
      }
      var r, user := resource.value, store.auth.user.value;
      isCompleting := true;
      ghost var rs, done := store.education.resources, store.education.userCompletedResources;
      if Covers(rs, done, user.id) {
        MarkListsResource(rs, done, r.id, user.id);
        MarkKeepsCovers(rs, done, r.id, user.id, user.id);
      }
      store.education.MarkResourceAsCompleted(r.id, user.id);
      store.activities.AddActivity(CompletionLog(user, r, activityId, now));
      store.auth.AddUserPoints(r.points);
      isCompleting := false;
    }
  }
}
