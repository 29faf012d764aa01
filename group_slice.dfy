/** The `groups` slice of src/redux/slice/group.slice.ts: the known student groups,
    the page fields and the flags. The thunks appear only through their reducers. */
module GroupSlice {
  import opened Common
  import opened Entities

  datatype GroupsFields = GroupsFields(
    groups: seq<Group>,
    totalPages: int,
    currentPage: int,
    isLoading: bool,
    errors: Option<ErrorValue>)

  class GroupsState {
    var groups: seq<Group>
    var totalPages: int
    var currentPage: int
    var isLoading: bool
    var errors: Option<ErrorValue>

    function Fields(): GroupsFields
      reads this
    {
      GroupsFields(groups, totalPages, currentPage, isLoading, errors)
    }

    constructor ()
      ensures Fields() == GroupsFields([], 0, 1, false, None)
    {
      groups := [];
      totalPages := 0;
      currentPage := 1;
      isLoading := false;
      errors := None;
    }

    /** `setPage`: changes only `currentPage`. */
    method SetPage(page: int)
      modifies this
      ensures Fields() == old(Fields()).(currentPage := page)
    {
      currentPage := page;
    }

    /** `getAllGroups.fulfilled`: `currentPage` and `errors` stay. */
    method GetAllFulfilled(data: seq<Group>, totalPages: int)
      modifies this
      ensures Fields() == old(Fields()).(groups := data, totalPages := totalPages, isLoading := false)
    {
      groups := data;
      this.totalPages := totalPages;
      isLoading := false;
    }

    /** `getAllGroups.pending`: loading, errors cleared. */
    method GetAllPending()
      modifies this
      ensures Fields() == old(Fields()).(isLoading := true, errors := None)
    {
      isLoading := true;
      errors := None;
    }

    /** `getAllGroups.rejected` and `createGroup.rejected` */
    method Rejected(payload: ErrorValue)
      modifies this
      ensures Fields() == old(Fields()).(isLoading := false, errors := Some(payload))
    {
      isLoading := false;
      errors := Some(payload);
    }

    /** `createGroup.fulfilled`: the new group is appended; the flags are not
        touched, so a loading flag raised by `createGroup.pending` stays up. */
    method CreateFulfilled(group: Group)
      modifies this
      ensures Fields() == old(Fields()).(groups := old(groups) + [group])
    {
      groups := groups + [group];
    }

    /** `createGroup.pending`: loading; unlike `getAllGroups.pending` the errors stay. */
    method CreatePending()
      modifies this
      ensures Fields() == old(Fields()).(isLoading := true)
    {
      isLoading := true;
    }
  }

  /** A successful group creation leaves the slice loading: pending raises the flag
      and fulfilled does not lower it. */
  method CreateGroupLeavesLoading(s: GroupsState, group: Group)
    modifies s
    ensures s.isLoading
    ensures s.groups == old(s.groups) + [group] && s.errors == old(s.errors)
  {
    s.CreatePending();
    s.CreateFulfilled(group);
  }
}
