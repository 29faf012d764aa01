/** The staff page of src/pages/AdminPanel/AdminPanel.tsx: its own copy of the
    page-button builder, the create-manager form's change handler, which action
    buttons a listed user gets, and the staff-only gate. Its page change handler
    is `QueryParams.HandlePageChange`, shared with the order tables. */
module AdminPanel {
  import opened Common
  import opened Entities
  import Pagination

  /** The page's copy of `generatePagination`: the same loops, and the same list as
      the bar's own builder for every input. */
  method GeneratePagination(currentPage: int, totalPages: int) returns (pages: seq<Pagination.PageItem>)
    ensures pages == Pagination.PageWindow(currentPage, totalPages)
  {
    pages := [];
    if totalPages <= 7 {
      pages := Pagination.PushRun(pages, 1, totalPages);
      assert pages == Pagination.Run(1, totalPages);
    } else {
      ghost var left := if currentPage > 4 then [Pagination.Ellipsis] else [];
      ghost var right := if currentPage < totalPages - 3 then [Pagination.Ellipsis] else [];
      ghost var mid := Pagination.Run(Pagination.Max(2, currentPage - 2), Pagination.Min(totalPages - 1, currentPage + 2));
      pages := pages + [Pagination.Num(1)];
      if currentPage > 4 {
        pages := pages + [Pagination.Ellipsis];
      }
      assert pages == [Pagination.Num(1)] + left;
      pages := Pagination.PushRun(pages, Pagination.Max(2, currentPage - 2), Pagination.Min(totalPages - 1, currentPage + 2));
      if currentPage < totalPages - 3 {
        pages := pages + [Pagination.Ellipsis];
      }
      assert pages == [Pagination.Num(1)] + left + mid + right;
      pages := pages + [Pagination.Num(totalPages)];
    }
  }

  /** The two builders agree: both calls return the same list. */
  method BuildersAgree(currentPage: int, totalPages: int) returns (panel: seq<Pagination.PageItem>, bar: seq<Pagination.PageItem>)
    ensures panel == bar
  {
    panel := GeneratePagination(currentPage, totalPages);
    bar := Pagination.GeneratePagination(currentPage, totalPages);
  }

  /** The create-manager form: the top-level text fields (`email`, `username`) and
      the nested `profile` fields (`first_name`, `last_name`). */
  datatype FormData = FormData(fields: map<string, string>, profile: map<string, string>)

  const InitialForm := FormData(map["email" := "", "username" := ""], map["first_name" := "", "last_name" := ""])

  /** Whether a field name is routed into `profile`. */
  predicate IsProfileField(name: string)
  {
    Contains(name, "first_name") || Contains(name, "last_name")
  }

  /** `handleChange`: a name containing "first_name" or "last_name" updates only that
      key inside `profile`; any other name sets that top-level field and leaves
      `profile` alone. */
  function HandleChange(prev: FormData, name: string, value: string): (r: FormData)
    ensures IsProfileField(name) ==> r.fields == prev.fields && Lookup(r.profile, name) == Some(value)
    ensures !IsProfileField(name) ==> r.profile == prev.profile && Lookup(r.fields, name) == Some(value)
    ensures forall k :: k != name ==> Lookup(r.fields, k) == Lookup(prev.fields, k) && Lookup(r.profile, k) == Lookup(prev.profile, k)
  {
    if IsProfileField(name) then prev.(profile := prev.profile[name := value])
    else prev.(fields := prev.fields[name := value])
  }

  /** Typing into the first or last name box never touches email or username, and
      typing into the email box never touches the profile. */
  lemma FormInputsIndependent(prev: FormData, value: string)
    ensures HandleChange(prev, "first_name", value).fields == prev.fields
    ensures HandleChange(prev, "last_name", value).fields == prev.fields
    ensures HandleChange(prev, "email", value).profile == prev.profile
    ensures HandleChange(prev, "username", value).profile == prev.profile
  {
    assert OccursAt("first_name", "first_name", 0);
    assert OccursAt("last_name", "last_name", 0);
    ContainsIffOccurs("first_name", "first_name");
    ContainsIffOccurs("last_name", "last_name");
    NotProfileField("email");
    NotProfileField("username");
  }

  lemma NotProfileField(name: string)
    requires |name| < |"last_name"|
    ensures !IsProfileField(name)
  {
    ContainsIffOccurs(name, "first_name");
    ContainsIffOccurs(name, "last_name");
  }

  /** Which buttons a listed user's row offers. */
  datatype UserActions = UserActions(
    activateEnabled: bool,
    recoverEnabled: bool,
    showsBan: bool,
    banOrUnbanEnabled: bool)

  /** The row's buttons: Activate only for a non-manager, Recover and Ban/Unban
      only for a manager; Ban is shown for an active user and Unban otherwise. */
  function ActionsFor(u: User): (a: UserActions)
    ensures a.activateEnabled <==> !u.isManager
    ensures a.recoverEnabled <==> u.isManager
    ensures a.banOrUnbanEnabled <==> u.isManager
    ensures a.showsBan <==> u.isActive
  {
    UserActions(!u.isManager, u.isManager, u.isActive, u.isManager)
  }

  /** No user can be both activated and recovered from the panel. */
  lemma ActivateAndRecoverExclusive(u: User)
    ensures ActionsFor(u).activateEnabled != ActionsFor(u).recoverEnabled
  {
  }

  /** The effect's condition for fetching users and stats. */
  predicate FetchesUsers(userData: Option<User>)
    ensures userData.None? ==> !FetchesUsers(userData)
    ensures FetchesUsers(userData) ==> userData.value.isStaff
  {
    userData.Some? && userData.value.isStaff
  }

  /** The render condition: anyone else sees "Access Denied". */
  predicate ShowsPanel(userData: Option<User>)
    ensures ShowsPanel(userData) <==> userData.Some? && userData.value.isStaff
  {
    !(userData.None? || !userData.value.isStaff)
  }

  /** Users are fetched exactly when the panel is shown: only for staff. */
  lemma FetchIffPanelShown(userData: Option<User>)
    ensures FetchesUsers(userData) <==> ShowsPanel(userData)
    ensures ShowsPanel(userData) ==> userData.Some? && userData.value.isStaff
  {
  }
}
