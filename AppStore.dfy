/** The global store: one object per slice. */
module AppStore {
  import opened Types
  import opened AuthSlice
  import opened DonationsSlice
  import opened ActivitiesSlice
  import opened EducationSlice

  class Store {
    const auth: AuthState
    const donations: DonationsState
    const activities: ActivitiesState
    const education: EducationState

    /** A store over the given tables, with nobody logged in and empty per-user views. */
    constructor (table: seq<FoodListing>, log: seq<ActivityLog>, catalogue: seq<EducationResource>)
      ensures fresh(auth) && fresh(donations) && fresh(activities) && fresh(education)
      ensures auth.user == None && !auth.isLoading && auth.error == None
      ensures donations.donations == table && donations.userDonations == [] && donations.userClaims == []
      ensures activities.activities == log
      ensures education.resources == catalogue && education.userCompletedResources == []
      ensures !donations.isLoading && donations.error == None
      ensures !activities.isLoading && activities.error == None
      ensures !education.isLoading && education.error == None
    {
      auth := new AuthState();
      donations := new DonationsState(table);
      activities := new ActivitiesState(log);
      education := new EducationState(catalogue);
    }
  }
}
