/** Record types of the client-side store: the user, a donation listing,
    an activity log entry and an education resource. Dates are integer
    timestamps; images, avatars and thumbnails are not modelled. */
module Types {

  datatype Option<+T> = None | Some(value: T)

  datatype UserType = Individual | Business

  datatype User = User(
    id: string,
    name: string,
    email: string,
    userType: UserType,
    points: int,
    level: int,
    createdAt: int)

  /** A `Partial<User>`: each field that is `Some` is supplied by the caller. */
  datatype UserPatch = UserPatch(
    id: Option<string>,
    name: Option<string>,
    email: Option<string>,
    userType: Option<UserType>,
    points: Option<int>,
    level: Option<int>,
    createdAt: Option<int>)

  /** A donation listing (`FoodListing`); `claimedBy` is absent until claimed. */
  datatype FoodListing = FoodListing(
    id: string,
    userId: string,
    title: string,
    description: string,
    quantity: int,
    category: string,
    location: string,
    expiryDate: int,
    createdAt: int,
    isClaimed: bool,
    claimedBy: Option<string>)

  datatype ActivityType = DonationActivity | ClaimActivity | EducationActivity | VolunteerActivity

  datatype ActivityLog = ActivityLog(
    id: string,
    userId: string,
    kind: ActivityType,
    points: int,
    description: string,
    timestamp: int)

  datatype ResourceType = Video | Article | Quiz

  /** An education resource; `completedBy` lists the ids of the users who completed it. */
  datatype EducationResource = EducationResource(
    id: string,
    title: string,
    description: string,
    kind: ResourceType,
    duration: int,
    points: int,
    content: string,
    tags: seq<string>,
    completedBy: seq<string>)
}
