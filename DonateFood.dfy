/** The donation form: its validation rules and the submit transaction that
    adds the listing, logs a donation activity and credits 50 points. */
module DonateFood {
  import opened Types
  import opened AuthSlice
  import opened AppStore

  const DonationPoints: int := 50

  /** The submitted form. The image field is not modelled; the expiry date is a timestamp. */
  datatype DonationForm = DonationForm(
    title: string,
    description: string,
    category: string,
    location: string,
    quantity: int,
    expiryDate: int)

  /** The rules of the donation schema, one per field. */
  predicate ValidDonation(f: DonationForm, now: int)
  {
    && |f.title| >= 3
    && |f.description| >= 10
    && |f.category| >= 1
    && |f.location| >= 3
    && f.quantity >= 1
    && f.expiryDate > now
  }

  const TitleMessage: string := "Title must be at least 3 characters"
  const DescriptionMessage: string := "Description must be at least 10 characters"
  const CategoryMessage: string := "Please select a category"
  const LocationMessage: string := "Location must be at least 3 characters"
  const QuantityMessage: string := "Quantity must be at least 1"
  const ExpiryMessage: string := "Expiry date must be in the future"

  /** The message of one rule, when the rule fails. */
  function Reported(fails: bool, message: string): seq<string>
  {
    if fails then [message] else []
  }

  /** The messages the schema reports for a form, in field order: each message
      appears exactly when its rule fails. */
  function SchemaErrors(f: DonationForm, now: int): (errors: seq<string>)
    ensures errors == [] <==> ValidDonation(f, now)
    ensures |errors| <= 6
    ensures |f.title| < 3 <==> TitleMessage in errors
    ensures |f.description| < 10 <==> DescriptionMessage in errors
    ensures |f.category| < 1 <==> CategoryMessage in errors
    ensures |f.location| < 3 <==> LocationMessage in errors
    ensures f.quantity < 1 <==> QuantityMessage in errors
    ensures f.expiryDate <= now <==> ExpiryMessage in errors
  {
    // The messages differ in their first letter, so no rule's message stands for another's.
    assert TitleMessage[0] == 'T' && DescriptionMessage[0] == 'D' && CategoryMessage[0] == 'P';
    assert LocationMessage[0] == 'L' && QuantityMessage[0] == 'Q' && ExpiryMessage[0] == 'E';
    Reported(|f.title| < 3, TitleMessage)
    + Reported(|f.description| < 10, DescriptionMessage)
    + Reported(|f.category| < 1, CategoryMessage)
    + Reported(|f.location| < 3, LocationMessage)
    + Reported(f.quantity < 1, QuantityMessage)
    + Reported(f.expiryDate <= now, ExpiryMessage)
  }

  /** The listing created for `owner` from the form: theirs, and not claimed. */
  function NewDonation(owner: User, f: DonationForm, id: string, now: int): (d: FoodListing)
    ensures d.userId == owner.id && !d.isClaimed && d.claimedBy == None
    ensures d.title == f.title && d.description == f.description && d.category == f.category
    ensures d.location == f.location && d.quantity == f.quantity && d.expiryDate == f.expiryDate
  {
    FoodListing(id, owner.id, f.title, f.description, f.quantity, f.category, f.location,
                f.expiryDate, now, false, None)
  }

  /** The activity logged for a donation. */
  function DonationLog(owner: User, f: DonationForm, id: string, now: int): (a: ActivityLog)
    ensures a.userId == owner.id && a.kind == DonationActivity && a.points == DonationPoints
  {
    ActivityLog(id, owner.id, DonationActivity, DonationPoints, "Donated " + f.title, now)
  }

  class DonateFoodPage {
    var isSubmitting: bool

    constructor ()
      ensures !isSubmitting
    {
      isSubmitting := false;
    }

    /** `onSubmit`: with no user nothing happens; otherwise the new listing is put first in
        the table and in the user's donations, a 50-point donation activity is put first in
        the log, and exactly those 50 points are credited to the user. */
    method OnSubmit(store: Store, f: DonationForm, donationId: string, activityId: string, now: int)
      modifies this, store.auth, store.donations, store.activities
      ensures old(store.auth.user).None? ==>
        && unchanged(this) && unchanged(store.auth) && unchanged(store.donations) && unchanged(store.activities)
      ensures old(store.auth.user).Some? ==>
        var u := old(store.auth.user).value;
        var d := NewDonation(u, f, donationId, now);
        && store.donations.donations == [d] + old(store.donations.donations)
        && store.donations.userDonations == [d] + old(store.donations.userDonations)
        && store.donations.userClaims == old(store.donations.userClaims)
        && store.activities.activities == [DonationLog(u, f, activityId, now)] + old(store.activities.activities)
        && !isSubmitting
        && store.auth.user.Some?
        && store.auth.user.value.points == u.points + DonationPoints
        && store.auth.user.value.points - u.points == store.activities.activities[0].points
        && store.auth.user.value.level == Level(store.auth.user.value.points)
        && store.auth.user.value.(points := u.points, level := u.level) == u
        && store.auth.isLoading == old(store.auth.isLoading) && store.auth.error == old(store.auth.error)
        && store.donations.isLoading == old(store.donations.isLoading)
        && store.donations.error == old(store.donations.error)
        && store.activities.isLoading == old(store.activities.isLoading)
        && store.activities.error == old(store.activities.error)
    {
      if store.auth.user.None? {
        return;
      }
      var user := store.auth.user.value;
      isSubmitting := true;
      var newDonation := NewDonation(user, f, donationId, now);
      store.donations.AddDonation(newDonation);
      store.activities.AddActivity(DonationLog(user, f, activityId, now));
      store.auth.AddUserPoints(DonationPoints);
      isSubmitting := false;
    }

    /** The form's submit handler: the schema is checked first; a form that fails it reaches
        no store action and its messages are returned, and a valid one has the effect of `OnSubmit`. */
    method HandleSubmit(store: Store, f: DonationForm, donationId: string, activityId: string, now: int)
      returns (errors: seq<string>)
      modifies this, store.auth, store.donations, store.activities
      ensures errors == SchemaErrors(f, now)
      ensures errors != [] ==>
        unchanged(this) && unchanged(store.auth) && unchanged(store.donations) && unchanged(store.activities)
      ensures errors == [] && old(store.auth.user).None? ==>
        && unchanged(this) && unchanged(store.auth) && unchanged(store.donations) && unchanged(store.activities)
      ensures errors == [] && old(store.auth.user).Some? ==>
        var u := old(store.auth.user).value;
        var d := NewDonation(u, f, donationId, now);
        && store.donations.donations == [d] + old(store.donations.donations)
        && store.donations.userDonations == [d] + old(store.donations.userDonations)
        && store.donations.userClaims == old(store.donations.userClaims)
        && store.activities.activities == [DonationLog(u, f, activityId, now)] + old(store.activities.activities)
        && !isSubmitting
        && store.auth.user.Some?
        && store.auth.user.value.points == u.points + DonationPoints
        && store.auth.user.value.level == Level(store.auth.user.value.points)
        && store.auth.user.value.(points := u.points, level := u.level) == u
        && store.auth.isLoading == old(store.auth.isLoading) && store.auth.error == old(store.auth.error)
        && store.donations.isLoading == old(store.donations.isLoading)
        && store.donations.error == old(store.donations.error)
        && store.activities.isLoading == old(store.activities.isLoading)
        && store.activities.error == old(store.activities.error)
    {
      errors := SchemaErrors(f, now);
      if errors == [] {
        OnSubmit(store, f, donationId, activityId, now);
      }
    }
  }
}
