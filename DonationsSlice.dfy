/** The donations slice: the table of all listings and two per-user views,
    the current user's donations and the current user's claims. */
module DonationsSlice {
  import opened Types
  import opened Seqs

  /** Index of the first listing with id `id`, or -1 (`findIndex` / `find`). */
  function FirstWithId(s: seq<FoodListing>, id: string): (i: int)
    ensures -1 <= i < |s|
    ensures 0 <= i ==> s[i].id == id && forall j :: 0 <= j < i ==> s[j].id != id
    ensures i == -1 <==> forall j :: 0 <= j < |s| ==> s[j].id != id
  {
    FindIndex(s, (d: FoodListing) => d.id == id)
  }

  /** One list after `updateDonation(d)`: the first entry with `d`'s id becomes `d`. */
  function ReplaceFirst(s: seq<FoodListing>, d: FoodListing): (r: seq<FoodListing>)
    ensures |r| == |s|
    ensures (forall j :: 0 <= j < |s| ==> s[j].id != d.id) ==> r == s
    ensures forall j :: 0 <= j < |s| ==>
      r[j] == s[j] || (r[j] == d && s[j].id == d.id && forall k :: 0 <= k < j ==> s[k].id != d.id)
    ensures 0 <= FirstWithId(s, d.id) ==> r[FirstWithId(s, d.id)] == d
    ensures forall j :: 0 <= j < |s| && j != FirstWithId(s, d.id) ==> r[j] == s[j]
  {
    var i := FirstWithId(s, d.id);
    if i == -1 then s else s[i := d]
  }

  /** One list after `deleteDonation(id)`. */
  function WithoutId(s: seq<FoodListing>, id: string): (r: seq<FoodListing>)
    ensures forall x :: x in r <==> x in s && x.id != id
  {
    Filter(s, (d: FoodListing) => d.id != id)
  }

  /** The listings donated by `userId`, in table order (`setUserDonations`). */
  function DonatedBy(s: seq<FoodListing>, userId: string): (r: seq<FoodListing>)
    ensures forall x :: x in r <==> x in s && x.userId == userId
  {
    Filter(s, (d: FoodListing) => d.userId == userId)
  }

  /** The listings claimed by `userId`, in table order (`setUserClaims`). */
  function ClaimedBy(s: seq<FoodListing>, userId: string): (r: seq<FoodListing>)
    ensures forall x :: x in r <==> x in s && x.claimedBy == Some(userId)
  {
    Filter(s, (d: FoodListing) => d.claimedBy == Some(userId))
  }

  /** A listing as claimed by `userId`. */
  function AsClaimed(d: FoodListing, userId: string): FoodListing
  {
    d.(isClaimed := true, claimedBy := Some(userId))
  }

  /** The table after `claimDonation`: the first listing with the id is marked claimed. */
  function ClaimFirst(s: seq<FoodListing>, id: string, userId: string): (r: seq<FoodListing>)
    ensures |r| == |s|
    ensures FirstWithId(s, id) == -1 ==> r == s
    ensures 0 <= FirstWithId(s, id) ==>
      var i := FirstWithId(s, id);
      r[i].isClaimed && r[i].claimedBy == Some(userId) && r[i].(isClaimed := s[i].isClaimed, claimedBy := s[i].claimedBy) == s[i]
    ensures forall j :: 0 <= j < |s| && j != FirstWithId(s, id) ==> r[j] == s[j]
  {
    var i := FirstWithId(s, id);
    if i == -1 then s else s[i := AsClaimed(s[i], userId)]
  }

  /** Deleting and both per-user views keep the table's order: each is a subsequence of it. */
  lemma ViewsKeepTableOrder(s: seq<FoodListing>, id: string, userId: string)
    ensures IsSubsequence(WithoutId(s, id), s)
    ensures IsSubsequence(DonatedBy(s, userId), s)
    ensures IsSubsequence(ClaimedBy(s, userId), s)
  {
    FilterIsSubsequence(s, (d: FoodListing) => d.id != id);
    FilterIsSubsequence(s, (d: FoodListing) => d.userId == userId);
    FilterIsSubsequence(s, (d: FoodListing) => d.claimedBy == Some(userId));
  }

  /** Updating twice with the same payload is updating once. */
  lemma ReplaceFirstIdempotent(s: seq<FoodListing>, d: FoodListing)
    ensures ReplaceFirst(ReplaceFirst(s, d), d) == ReplaceFirst(s, d)
  {
    var i := FirstWithId(s, d.id);
    if i != -1 {
      var r := s[i := d];
      assert r[i].id == d.id && forall j :: 0 <= j < i ==> r[j].id != d.id;
      assert FirstWithId(r, d.id) == i;
    }
  }

  /** Deleting the id of a freshly added listing whose id was new restores the list. */
  lemma DeleteUndoesAdd(s: seq<FoodListing>, d: FoodListing)
    requires forall j :: 0 <= j < |s| ==> s[j].id != d.id
    ensures WithoutId([d] + s, d.id) == s
  {
    assert ([d] + s)[1..] == s;
    FilterKeepsAll(s, (x: FoodListing) => x.id != d.id);
  }

  /** Adding a listing of `userId` keeps `userDonations` equal to `userId`'s view of the table. */
  lemma AddKeepsDonatedView(s: seq<FoodListing>, view: seq<FoodListing>, d: FoodListing, userId: string)
    requires view == DonatedBy(s, userId) && d.userId == userId
    ensures [d] + view == DonatedBy([d] + s, userId)
  {
    assert ([d] + s)[1..] == s;
  }

  /** Deleting from the table and from the view keeps the view equal to the per-user filter. */
  lemma DeleteKeepsDonatedView(s: seq<FoodListing>, id: string, userId: string)
    ensures WithoutId(DonatedBy(s, userId), id) == DonatedBy(WithoutId(s, id), userId)
  {
    FilterCommutes(s, (d: FoodListing) => d.userId == userId, (d: FoodListing) => d.id != id);
  }

  /** After a successful claim, refreshing the claims view shows the claimed listing. */
  lemma ClaimShowsInClaims(s: seq<FoodListing>, id: string, userId: string)
    requires 0 <= FirstWithId(s, id)
    ensures AsClaimed(s[FirstWithId(s, id)], userId) in ClaimedBy(ClaimFirst(s, id, userId), userId)
  {
    var i := FirstWithId(s, id);
    assert ClaimFirst(s, id, userId)[i] == AsClaimed(s[i], userId);
  }

  class DonationsState {
    var donations: seq<FoodListing>
    var userDonations: seq<FoodListing>
    var userClaims: seq<FoodListing>
    var isLoading: bool
    var error: Option<string>

    /** The initial state: a table of listings and empty per-user views. */
    constructor (table: seq<FoodListing>)
      ensures donations == table && userDonations == [] && userClaims == []
      ensures !isLoading && error == None
    {
      donations := table;
      userDonations := [];
      userClaims := [];
      isLoading := false;
      error := None;
    }

    /** `addDonation`: the listing goes to the front of the table and of the user's donations. */
    method AddDonation(d: FoodListing)
      modifies this
      ensures donations == [d] + old(donations)
      ensures userDonations == [d] + old(userDonations)
      ensures userClaims == old(userClaims) && isLoading == old(isLoading) && error == old(error)
    {
      donations := [d] + donations;
      userDonations := [d] + userDonations;
    }

    /** `updateDonation`: the first entry with the payload's id is replaced in each list. */
    method UpdateDonation(d: FoodListing)
      modifies this
      ensures donations == ReplaceFirst(old(donations), d)
      ensures userDonations == ReplaceFirst(old(userDonations), d)
      ensures userClaims == old(userClaims) && isLoading == old(isLoading) && error == old(error)
    {
      var index := FirstWithId(donations, d.id);
      if index != -1 {
        donations := donations[index := d];
      }
      var userDonationIndex := FirstWithId(userDonations, d.id);
      if userDonationIndex != -1 {
        userDonations := userDonations[userDonationIndex := d];
      }
    }

    /** `deleteDonation`: every entry with the id leaves the table and the user's donations. */
    method DeleteDonation(id: string)
      modifies this
      ensures donations == WithoutId(old(donations), id)
      ensures userDonations == WithoutId(old(userDonations), id)
      ensures userClaims == old(userClaims) && isLoading == old(isLoading) && error == old(error)
    {
      donations := WithoutId(donations, id);
      userDonations := WithoutId(userDonations, id);
    }

    /** `claimDonation`: the first listing with the id is marked claimed by `userId` and a
        copy is appended to the claims; an unknown id changes nothing. */
    method ClaimDonation(donationId: string, userId: string)
      modifies this
      ensures donations == ClaimFirst(old(donations), donationId, userId)
      ensures FirstWithId(old(donations), donationId) == -1 ==> userClaims == old(userClaims)
      ensures 0 <= FirstWithId(old(donations), donationId) ==>
        userClaims == old(userClaims) + [AsClaimed(old(donations)[FirstWithId(old(donations), donationId)], userId)]
      ensures userDonations == old(userDonations) && isLoading == old(isLoading) && error == old(error)
    {
      var i := FirstWithId(donations, donationId);
      if i != -1 {
        var claimed := AsClaimed(donations[i], userId);
        donations := donations[i := claimed];
        userClaims := userClaims + [claimed];
      }
    }

    /** `setUserDonations`: the view becomes exactly `userId`'s listings, in table order. */
    method SetUserDonations(userId: string)
      modifies this
      ensures userDonations == DonatedBy(donations, userId)
      ensures donations == old(donations) && userClaims == old(userClaims)
      ensures isLoading == old(isLoading) && error == old(error)
    {
      userDonations := DonatedBy(donations, userId);
    }

    /** `setUserClaims`: the view becomes exactly the listings claimed by `userId`, in table order. */
    method SetUserClaims(userId: string)
      modifies this
      ensures userClaims == ClaimedBy(donations, userId)
      ensures donations == old(donations) && userDonations == old(userDonations)
      ensures isLoading == old(isLoading) && error == old(error)
    {
      userClaims := ClaimedBy(donations, userId);
    }
  }
}
