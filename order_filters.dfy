/** The filter bar of src/components/OrderFilters/OrderFilters.tsx: which key each
    control reports to the table's change handlers, and the "My orders" checkbox,
    which edits the address itself. `userId` is a number that may be missing; a
    missing `username` is `undefined`, which `set` writes as the text
    "undefined". */
module OrderFilters {
  import opened Common
  import opened Browser
  import opened OrderTable

  const ManagerParam := "manager"

  /** The keys the text and select controls report, in the order they appear;
      the last two are the date fields, which go to `handleDateChange`. The
      manager filter has no control of this kind: the checkbox below sets it. */
  const ControlKeys: seq<string> := ["course", "courseFormat", "courseType", "status", "name", "surname",
    "phone", "email", "group", "age", "alreadyPaid", "sum", "created_at_after", "created_at_before"]

  /** The controls are the filters other than the manager. */
  lemma ControlsAreFilters()
    ensures ControlKeys == FilterKeys[..|FilterKeys| - 1] && FilterKeys[|FilterKeys| - 1] == ManagerParam
  {
  }

  /** Exactly the format and type controls report a key that differs from the
      filter's address name. */
  lemma ControlKeysWiring()
    ensures forall i :: 0 <= i < |ControlKeys| ==>
      (ParamName(ControlKeys[i]) != ControlKeys[i] <==> ControlKeys[i] == "courseFormat" || ControlKeys[i] == "courseType")
  {
  }

  /** `userId` is truthy: present and not 0. */
  predicate IdTruthy(userId: Option<int>)
  {
    userId.Some? && userId.value != 0
  }

  /** The text `set` stores for `username`. */
  function Stringified(username: Option<string>): (r: string)
    ensures username.Some? ==> r == username.value
    ensures username.None? ==> r == "undefined"
  {
    match username
    case Some(u) => u
    case None => "undefined"
  }

  /** `checked={searchParams.get("manager") === username}`: a missing parameter
      (null) never equals a missing name (undefined). */
  predicate IsChecked(params: map<string, string>, username: Option<string>)
    ensures username.None? ==> !IsChecked(params, username)
    ensures IsChecked(params, username) ==> ManagerParam in params && params[ManagerParam] == username.value
  {
    username.Some? && Lookup(params, ManagerParam) == username
  }

  /** The checkbox's change handler: ticking with a truthy `userId` sets "manager"
      to the user's name, anything else deletes it; "page" goes back to "1";
      nothing else changes. */
  method MyOrdersChange(prev: map<string, string>, checked: bool, userId: Option<int>, username: Option<string>)
      returns (next: map<string, string>)
    ensures checked && IdTruthy(userId) ==> Lookup(next, ManagerParam) == Some(Stringified(username))
    ensures !(checked && IdTruthy(userId)) ==> ManagerParam !in next
    ensures Lookup(next, PageParam) == Some("1")
    ensures forall k :: k != ManagerParam && k != PageParam ==> Lookup(next, k) == Lookup(prev, k)
  {
    var params := new SearchParams.Copy(prev);
    if checked && IdTruthy(userId) {
      params.Set(ManagerParam, Stringified(username));
    } else {
      params.Delete(ManagerParam);
    }
    params.Set(PageParam, "1");
    next := params.entries;
  }

  /** With a known user, ticking leaves the box checked and unticking leaves it
      unchecked; without an id ticking also leaves it unchecked. */
  method CheckedAfterChange(prev: map<string, string>, checked: bool, userId: Option<int>, username: string)
      returns (next: map<string, string>)
    ensures IsChecked(next, Some(username)) <==> checked && IdTruthy(userId)
    ensures PageNumber(next) == 1
  {
    next := MyOrdersChange(prev, checked, userId, Some(username));
    PageOne(next);
  }

  /** The live order table gives the bar no `username`: ticking with an id then
      stores the text "undefined" as the manager filter, and the box never shows
      as checked. */
  method TickWithoutUsername(prev: map<string, string>, userId: Option<int>) returns (next: map<string, string>)
    requires IdTruthy(userId)
    ensures Lookup(next, ManagerParam) == Some("undefined")
    ensures !IsChecked(next, None)
  {
    next := MyOrdersChange(prev, true, userId, None);
  }

  /** A "page" of "1" reads as page 1. */
  lemma PageOne(params: map<string, string>)
    requires Lookup(params, PageParam) == Some("1")
    ensures PageNumber(params) == 1
  {
    assert IntToDecimal(1) == "1";
    IntDecimalRoundTrip(1);
  }
}
