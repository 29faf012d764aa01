/** The `users` slice of src/redux/slice/users.slice.ts, which backs the admin
    panel's user list: the users of one page, the page number, the totals and the
    flags. The thunks appear only through their reducers. */
module UsersSlice {
  import opened Common
  import opened Entities
  import opened Lists

  datatype UsersFields = UsersFields(
    users: seq<User>,
    page: int,
    totalItems: int,
    totalPages: int,
    isLoading: bool,
    errors: Option<ErrorValue>)

  /** The list after `users.unshift(user)`. */
  function Unshift(users: seq<User>, user: User): (r: seq<User>)
    ensures |r| == |users| + 1 && r[0] == user
    ensures forall i :: 0 <= i < |users| ==> r[i + 1] == users[i]
  {
    [user] + users
  }

  /** Blocking and then unblocking the same user leaves the list as the unblock
      alone would: the later server copy wins. */
  lemma LaterUpdateWins(users: seq<User>, blocked: User, unblocked: User)
    requires blocked.id == unblocked.id
    ensures ReplaceFirst(ReplaceFirst(users, UserId, blocked), UserId, unblocked) == ReplaceFirst(users, UserId, unblocked)
  {
    ReplaceFirstTwice(users, UserId, blocked, unblocked);
  }

  class UsersState {
    var users: seq<User>
    var page: int
    var totalItems: int
    var totalPages: int
    var isLoading: bool
    var errors: Option<ErrorValue>

    function Fields(): UsersFields
      reads this
    {
      UsersFields(users, page, totalItems, totalPages, isLoading, errors)
    }

    constructor ()
      ensures Fields() == UsersFields([], 1, 0, 0, false, None)
    {
      users := [];
      page := 1;
      totalItems := 0;
      totalPages := 0;
      isLoading := false;
      errors := None;
    }

    /** `setPage`: changes only `page`. */
    method SetPage(p: int)
      modifies this
      ensures Fields() == old(Fields()).(page := p)
    {
      page := p;
    }

    /** `getAllUsers.pending` */
    method GetAllPending()
      modifies this
      ensures Fields() == old(Fields()).(isLoading := true, errors := None)
    {
      isLoading := true;
      errors := None;
    }

    /** `getAllUsers.fulfilled`: `page` comes from the action's argument, the rest
        from the response. */
    method GetAllFulfilled(argPage: int, data: seq<User>, totalPages: int, totalItems: int)
      modifies this
      ensures Fields() == old(Fields()).(users := data, page := argPage, totalPages := totalPages,
                                         totalItems := totalItems, isLoading := false)
    {
      users := data;
      page := argPage;
      this.totalPages := totalPages;
      this.totalItems := totalItems;
      isLoading := false;
    }

    /** `getAllUsers.rejected` */
    method GetAllRejected(payload: ErrorValue)
      modifies this
      ensures Fields() == old(Fields()).(isLoading := false, errors := Some(payload))
    {
      isLoading := false;
      errors := Some(payload);
    }

    /** `createManager.fulfilled`: the new user goes first and the total grows by one. */
    method CreateManagerFulfilled(user: User)
      modifies this
      ensures Fields() == old(Fields()).(users := Unshift(old(users), user), totalItems := old(totalItems) + 1)
    {
      users := [user] + users;
      totalItems := totalItems + 1;
    }

    /** `createManager.rejected`, `blockUser.rejected` and `unblockUser.rejected`:
        only `errors` changes. */
    method ActionRejected(payload: ErrorValue)
      modifies this
      ensures Fields() == old(Fields()).(errors := Some(payload))
    {
      errors := Some(payload);
    }

    /** `blockUser.fulfilled` and `unblockUser.fulfilled`: the first user with the
        returned user's id is overwritten; with none, nothing changes. */
    method UserUpdated(updated: User)
      modifies this
      ensures Fields() == old(Fields()).(users := ReplaceFirst(old(users), UserId, updated))
    {
      var index := FindIndex(users, UserId, updated.id);
      if index != -1 {
        assert forall i :: 0 <= i < |users| && IsFirstMatch(users, UserId, updated.id, i) ==> i == index;
        users := users[index := updated];
      }
    }
  }
}
