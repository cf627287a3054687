/** The mock authentication flows: each is a sequence of store actions. The
    one-second delays and the notifications are not modelled; generated ids
    and the current time are parameters. */
module AuthContext {
  import opened Types
  import opened AuthSlice
  import opened DonationsSlice
  import opened EducationSlice
  import opened AppStore

  const DemoEmail: string := "demo@example.com"
  const DemoPassword: string := "password"
  const InvalidCredentials: string := "Invalid email or password"
  const NoUserLoggedIn: string := "No user logged in"
  const WelcomePoints: int := 20

  /** The mock user the demo credentials log in as. */
  function DemoUser(now: int): (u: User)
    ensures u.id == "user-1" && u.points == 150 && u.level == Level(u.points)
  {
    User("user-1", "Demo User", DemoEmail, Individual, 150, 2, now)
  }

  /** JavaScript's `value || fallback` on an optional string: absent or empty gives the fallback. */
  function OrDefault(value: Option<string>, fallback: string): (r: string)
    ensures value.Some? && value.value != "" ==> r == value.value
    ensures value.None? || value.value == "" ==> r == fallback
  {
    if value.Some? && value.value != "" then value.value else fallback
  }

  /** The user `register` creates from the supplied fields. */
  function NewUser(id: string, name: Option<string>, email: Option<string>, userType: Option<UserType>, now: int): (u: User)
    ensures u.id == id && u.points == 0 && u.level == Level(u.points) && u.createdAt == now
    ensures u.name == OrDefault(name, "New User") && u.email == OrDefault(email, "")
    ensures u.userType == (if userType.Some? then userType.value else Individual)
  {
    User(id, OrDefault(name, "New User"), OrDefault(email, ""),
         if userType.Some? then userType.value else Individual, 0, 1, now)
  }

  /** `{...user, ...userData}`: the user with exactly the supplied fields overwritten. */
  function Merge(u: User, p: UserPatch): (r: User)
    ensures r.id == (if p.id.Some? then p.id.value else u.id)
    ensures r.name == (if p.name.Some? then p.name.value else u.name)
    ensures r.email == (if p.email.Some? then p.email.value else u.email)
    ensures r.userType == (if p.userType.Some? then p.userType.value else u.userType)
    ensures r.points == (if p.points.Some? then p.points.value else u.points)
    ensures r.level == (if p.level.Some? then p.level.value else u.level)
    ensures r.createdAt == (if p.createdAt.Some? then p.createdAt.value else u.createdAt)
  {
    User(
      if p.id.Some? then p.id.value else u.id,
      if p.name.Some? then p.name.value else u.name,
      if p.email.Some? then p.email.value else u.email,
      if p.userType.Some? then p.userType.value else u.userType,
      if p.points.Some? then p.points.value else u.points,
      if p.level.Some? then p.level.value else u.level,
      if p.createdAt.Some? then p.createdAt.value else u.createdAt)
  }

  /** Merging an empty patch keeps the user, and merging the same patch twice is merging it once. */
  lemma MergeLaws(u: User, p: UserPatch)
    ensures Merge(u, UserPatch(None, None, None, None, None, None, None)) == u
    ensures Merge(Merge(u, p), p) == Merge(u, p)
  {
  }

  /** `login`: the demo credentials log in the demo user and refresh the three per-user views;
      anything else records the error and keeps the previous user. */
  method Login(store: Store, email: string, password: string, now: int)
    modifies store.auth, store.donations, store.education
    ensures !store.auth.isLoading
    ensures email == DemoEmail && password == DemoPassword ==>
      && store.auth.user == Some(DemoUser(now))
      && store.auth.error == None
      && store.donations.userDonations == DonatedBy(store.donations.donations, "user-1")
      && store.donations.userClaims == ClaimedBy(store.donations.donations, "user-1")
      && store.education.userCompletedResources == CompletedIds(store.education.resources, "user-1")
    ensures !(email == DemoEmail && password == DemoPassword) ==>
      && store.auth.user == old(store.auth.user)
      && store.auth.error == Some(InvalidCredentials)
      && store.donations.userDonations == old(store.donations.userDonations)
      && store.donations.userClaims == old(store.donations.userClaims)
      && store.education.userCompletedResources == old(store.education.userCompletedResources)
    ensures store.donations.donations == old(store.donations.donations)
    ensures store.education.resources == old(store.education.resources)
    ensures store.donations.isLoading == old(store.donations.isLoading) && store.donations.error == old(store.donations.error)
    ensures store.education.isLoading == old(store.education.isLoading) && store.education.error == old(store.education.error)
  {
    store.auth.LoginStart();
    if email == DemoEmail && password == DemoPassword {
      var mockUser := DemoUser(now);
      store.auth.LoginSuccess(mockUser);
      store.donations.SetUserDonations(mockUser.id);
      store.donations.SetUserClaims(mockUser.id);
      store.education.SetUserCompletedResources(mockUser.id);
    } else {
      store.auth.LoginFailure(InvalidCredentials);
    }
  }

  /** `register`: logs in a new user with 0 points and level 1, logs a 20-point welcome
      activity (the points themselves are credited by the registration form, not here)
      and refreshes the three per-user views. The password is not used. */
  method Register(store: Store, name: Option<string>, email: Option<string>, userType: Option<UserType>,
                  password: string, userId: string, activityId: string, now: int)
    modifies store.auth, store.donations, store.activities, store.education
    ensures store.auth.user == Some(NewUser(userId, name, email, userType, now))
    ensures !store.auth.isLoading && store.auth.error == None
    ensures store.activities.activities ==
      [ActivityLog(activityId, userId, EducationActivity, WelcomePoints, "Joined Ne'ma - Welcome!", now)]
      + old(store.activities.activities)
    ensures store.donations.donations == old(store.donations.donations)
    ensures store.donations.userDonations == DonatedBy(store.donations.donations, userId)
    ensures store.donations.userClaims == ClaimedBy(store.donations.donations, userId)
    ensures store.education.resources == old(store.education.resources)
    ensures store.education.userCompletedResources == CompletedIds(store.education.resources, userId)
    ensures store.donations.isLoading == old(store.donations.isLoading) && store.donations.error == old(store.donations.error)
    ensures store.activities.isLoading == old(store.activities.isLoading) && store.activities.error == old(store.activities.error)
    ensures store.education.isLoading == old(store.education.isLoading) && store.education.error == old(store.education.error)
  {
    store.auth.RegisterStart();
    var newUser := NewUser(userId, name, email, userType, now);
    store.auth.RegisterSuccess(newUser);
    store.activities.AddActivity(
      ActivityLog(activityId, newUser.id, EducationActivity, WelcomePoints, "Joined Ne'ma - Welcome!", now));
    store.donations.SetUserDonations(newUser.id);
    store.donations.SetUserClaims(newUser.id);
    store.education.SetUserCompletedResources(newUser.id);
  }

  /** `updateUser`: without a logged-in user it fails before touching the store; otherwise
      the user becomes the old user with the supplied fields overwritten. */
  method UpdateUser(store: Store, patch: UserPatch) returns (failure: Option<string>)
    modifies store.auth
    ensures old(store.auth.user).None? ==> failure == Some(NoUserLoggedIn) && unchanged(store.auth)
    ensures old(store.auth.user).Some? ==>
      && failure == None
      && store.auth.user == Some(Merge(old(store.auth.user).value, patch))
      && !store.auth.isLoading && store.auth.error == None
  {
    if store.auth.user.None? {
      return Some(NoUserLoggedIn);
    }
    var user := store.auth.user.value;
    store.auth.UpdateUserStart();
    var updatedUser := Merge(user, patch);
    store.auth.UpdateUserSuccess(updatedUser);
    failure := None;
  }

  /** `logout`: clears the user; the per-user views are left as they were. */
  method LogoutUser(store: Store)
    modifies store.auth
    ensures store.auth.user == None && !store.auth.isLoading && store.auth.error == None
  {
    store.auth.Logout();
  }
}
