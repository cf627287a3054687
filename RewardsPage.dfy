/** The rewards page: rewards split by whether the current user can afford them,
    and each reward card's affordability and shortfall. */
module RewardsPage {
  import opened Types
  import opened Seqs

  /** A reward; its icon and description are not modelled. */
  datatype Reward = Reward(id: string, title: string, pointsCost: int, category: string)

  /** The list test: someone is logged in and has at least the reward's cost in points. */
  predicate CanAfford(user: Option<User>, r: Reward)
  {
    user.Some? && user.value.points >= r.pointsCost
  }

  /** `affordableRewards`, in the original order. */
  function AffordableRewards(user: Option<User>, rewards: seq<Reward>): (r: seq<Reward>)
    ensures forall x :: x in r <==> x in rewards && CanAfford(user, x)
  {
    Filter(rewards, (x: Reward) => CanAfford(user, x))
  }

  /** `unaffordableRewards`, in the original order. */
  function UnaffordableRewards(user: Option<User>, rewards: seq<Reward>): (r: seq<Reward>)
    ensures forall x :: x in r <==> x in rewards && !CanAfford(user, x)
  {
    Filter(rewards, (x: Reward) => !CanAfford(user, x))
  }

  /** The cards as shown: the affordable rewards first, then the others. */
  function DisplayOrder(user: Option<User>, rewards: seq<Reward>): seq<Reward>
  {
    AffordableRewards(user, rewards) + UnaffordableRewards(user, rewards)
  }

  /** The points a card compares against (`user?.points || 0`). */
  function CardPoints(user: Option<User>): int
  {
    if user.Some? then user.value.points else 0
  }

  /** A card's test: the points given to it cover the cost. */
  predicate CardAffordable(r: Reward, userPoints: int)
  {
    userPoints >= r.pointsCost
  }

  /** The "Need n more points" figure of a card. */
  function Shortfall(r: Reward, userPoints: int): (n: int)
    ensures CardAffordable(r, userPoints) <==> n <= 0
  {
    r.pointsCost - userPoints
  }

  /** The two lists partition the rewards: each reward (with its multiplicity) lands in
      exactly one, and each list keeps the original order. */
  lemma RewardsPartition(user: Option<User>, rewards: seq<Reward>)
    ensures multiset(AffordableRewards(user, rewards)) + multiset(UnaffordableRewards(user, rewards)) == multiset(rewards)
    ensures IsSubsequence(AffordableRewards(user, rewards), rewards)
    ensures IsSubsequence(UnaffordableRewards(user, rewards), rewards)
  {
    var p := (x: Reward) => CanAfford(user, x);
    var q := (x: Reward) => !CanAfford(user, x);
    FilterPartition(rewards, p, q);
    FilterIsSubsequence(rewards, p);
    FilterIsSubsequence(rewards, q);
  }

  /** The page shows every reward exactly once, affordable ones before the others. */
  lemma DisplayIsPermutation(user: Option<User>, rewards: seq<Reward>)
    ensures multiset(DisplayOrder(user, rewards)) == multiset(rewards)
    ensures forall i, j ::
      (0 <= i < j < |DisplayOrder(user, rewards)| && !CanAfford(user, DisplayOrder(user, rewards)[i]))
      ==> !CanAfford(user, DisplayOrder(user, rewards)[j])
  {
    RewardsPartition(user, rewards);
    var a, u := AffordableRewards(user, rewards), UnaffordableRewards(user, rewards);
    var d := DisplayOrder(user, rewards);
    forall k | 0 <= k < |d|
      ensures CanAfford(user, d[k]) <==> k < |a|
    {
      if k < |a| {
        assert d[k] == a[k] && a[k] in a;
      } else {
        assert d[k] == u[k - |a|] && u[k - |a|] in u;
      }
    }
  }

  /** With nobody logged in, nothing is affordable. */
  lemma {:induction false} NoUserNothingAffordable(rewards: seq<Reward>)
    ensures AffordableRewards(None, rewards) == []
  {
    if rewards != [] {
      NoUserNothingAffordable(rewards[1..]);
    }
  }

  /** For a logged-in user the card agrees with the list it is in. */
  lemma CardAgreesWithList(u: User, r: Reward)
    ensures CardAffordable(r, CardPoints(Some(u))) <==> CanAfford(Some(u), r)
    ensures !CanAfford(Some(u), r) ==> Shortfall(r, CardPoints(Some(u))) > 0
  {
  }
}
