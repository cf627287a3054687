/** The auth slice: the logged-in user, a loading flag and an error message,
    updated in place by one reducer per action. */
module AuthSlice {
  import opened Types

  /** The level shown for a points total: one level per 100 points, starting at 1.
      Dafny's `/` by a positive divisor rounds down, as `Math.floor` does. */
  function Level(points: int): (lv: int)
    ensures (lv - 1) * 100 <= points < lv * 100
    ensures points >= 0 ==> lv >= 1
  {
    points / 100 + 1
  }

  /** Gaining points never lowers the level. */
  lemma LevelMonotone(points: int, gain: int)
    requires gain >= 0
    ensures Level(points) <= Level(points + gain)
  {
  }

  class AuthState {
    var user: Option<User>
    var isLoading: bool
    var error: Option<string>

    /** The initial state: nobody logged in, idle, no error. */
    constructor ()
      ensures user == None && !isLoading && error == None
    {
      user := None;
      isLoading := false;
      error := None;
    }

    method LoginStart()
      modifies this
      ensures isLoading && error == None && user == old(user)
    {
      isLoading := true;
      error := None;
    }

    method LoginSuccess(u: User)
      modifies this
      ensures user == Some(u) && !isLoading && error == None
    {
      isLoading := false;
      user := Some(u);
      error := None;
    }

    method LoginFailure(message: string)
      modifies this
      ensures !isLoading && error == Some(message) && user == old(user)
    {
      isLoading := false;
      error := Some(message);
    }

    method RegisterStart()
      modifies this
      ensures isLoading && error == None && user == old(user)
    {
      isLoading := true;
      error := None;
    }

    method RegisterSuccess(u: User)
      modifies this
      ensures user == Some(u) && !isLoading && error == None
    {
      isLoading := false;
      user := Some(u);
      error := None;
    }

    method RegisterFailure(message: string)
      modifies this
      ensures !isLoading && error == Some(message) && user == old(user)
    {
      isLoading := false;
      error := Some(message);
    }

    /** Unlike the login and register starts, this one keeps any earlier error. */
    method UpdateUserStart()
      modifies this
      ensures isLoading && error == old(error) && user == old(user)
    {
      isLoading := true;
    }

    method UpdateUserSuccess(u: User)
      modifies this
      ensures user == Some(u) && !isLoading && error == None
    {
      isLoading := false;
      user := Some(u);
      error := None;
    }

    method UpdateUserFailure(message: string)
      modifies this
      ensures !isLoading && error == Some(message) && user == old(user)
    {
      isLoading := false;
      error := Some(message);
    }

    /** Credits `amount` points to the logged-in user and recomputes the level;
        without a user nothing happens. */
    method AddUserPoints(amount: int)
      modifies this
      ensures old(user).None? ==> user == old(user)
      ensures old(user).Some? ==>
        && user.Some?
        && user.value.points == old(user.value.points) + amount
        && user.value.level == Level(user.value.points)
        && user.value.(points := old(user.value.points), level := old(user.value.level)) == old(user.value)
      ensures old(user).Some? && amount >= 0 && old(user.value.level) == Level(old(user.value.points)) ==>
        user.value.level >= old(user.value.level)
      ensures isLoading == old(isLoading) && error == old(error)
    {
      if user.Some? {
        var u := user.value;
        var points := u.points + amount;
        user := Some(u.(points := points, level := Level(points)));
        if amount >= 0 {
          LevelMonotone(u.points, amount);
        }
      }
    }

    method Logout()
      modifies this
      ensures user == None && !isLoading && error == None
    {
      user := None;
      isLoading := false;
      error := None;
    }
  }
}
