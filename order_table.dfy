/** The order table of src/components/OrderTable/OrderTable.tsx, the variant that
    keeps the fifteen filters in component state and copies them into the address
    from a debounced callback (the order page mounts the other variant,
    `OrderClone`). The filters are a record of strings; a key the record lacks
    reads as `undefined`. The 500 ms debounce is not modelled, only the body it
    delays. */
module OrderTable {
  import opened Common
  import opened Browser
  import opened Lists
  import opened QueryParams

  /** The filter record's keys, in declaration order (the order `Object.entries`
      visits them). */
  const FilterKeys: seq<string> := ["course", "courseFormat", "courseType", "status", "name", "surname",
    "phone", "email", "group", "age", "alreadyPaid", "sum", "created_at_after", "created_at_before", "manager"]

  /** The address name a filter is written under: the two camelCase keys get their
      snake_case names, every other key is used as it is. */
  function ParamName(key: string): (r: string)
    ensures key == "courseFormat" ==> r == "course_format"
    ensures key == "courseType" ==> r == "course_type"
    ensures key != "courseFormat" && key != "courseType" ==> r == key
  {
    if key == "courseFormat" then "course_format"
    else if key == "courseType" then "course_type"
    else key
  }

  /** No two filters share a key or an address name, and an address name equals a
      filter key only when it is that filter's own. */
  predicate WellNamed(keys: seq<string>)
  {
    (forall i, j :: 0 <= i < |keys| && 0 <= j < |keys| && keys[i] == keys[j] ==> i == j) &&
    (forall i, j :: 0 <= i < |keys| && 0 <= j < |keys| && ParamName(keys[i]) == ParamName(keys[j]) ==> i == j) &&
    (forall i, j :: 0 <= i < |keys| && 0 <= j < |keys| && ParamName(keys[i]) == keys[j] ==> i == j)
  }

  lemma FilterKeysWellNamed()
    ensures WellNamed(FilterKeys)
  {
    FilterKeysDistinct();
    FilterNamesDistinct();
    FilterNamesOwnKeys();
  }

  lemma FilterKeysDistinct()
    ensures forall i, j :: 0 <= i < |FilterKeys| && 0 <= j < |FilterKeys| && FilterKeys[i] == FilterKeys[j] ==> i == j
  {
  }

  lemma FilterNamesDistinct()
    ensures forall i, j :: 0 <= i < |FilterKeys| && 0 <= j < |FilterKeys| && ParamName(FilterKeys[i]) == ParamName(FilterKeys[j]) ==> i == j
  {
  }

  lemma FilterNamesOwnKeys()
    ensures forall i, j :: 0 <= i < |FilterKeys| && 0 <= j < |FilterKeys| && ParamName(FilterKeys[i]) == FilterKeys[j] ==> i == j
  {
  }

  /** A prefix of a well-named key list is well named. */
  lemma PrefixWellNamed(keys: seq<string>, m: int)
    requires WellNamed(keys) && 0 <= m <= |keys|
    ensures WellNamed(keys[..m])
  {
  }

  /** `filtersChanged`: some filter differs from the filters applied last time. */
  predicate FiltersChanged(newFilters: map<string, string>, prevFilters: map<string, string>)
  {
    exists i :: 0 <= i < |FilterKeys| && Lookup(newFilters, FilterKeys[i]) != Lookup(prevFilters, FilterKeys[i])
  }

  /** The value under address name `n` after the debounced body, as written, has
      visited `keys` in order, starting from `prev`: each non-empty filter sets its
      address name, each empty one deletes its KEY. */
  function AsWrittenParam(prev: map<string, string>, filters: map<string, string>, keys: seq<string>, n: string): Option<string>
    decreases |keys|
  {
    if keys == [] then Lookup(prev, n)
    else
      var key := keys[|keys| - 1];
      var v := Lookup(filters, key);
      if Truthy(v) && ParamName(key) == n then v
      else if !Truthy(v) && key == n then None
      else AsWrittenParam(prev, filters, keys[..|keys| - 1], n)
  }

  /** The parameters the debounced body, as written, sets from `prev`. */
  ghost predicate AsWrittenResult(prev: map<string, string>, newFilters: map<string, string>,
                                  prevFilters: map<string, string>, order: string, next: map<string, string>)
  {
    (forall n :: n != PageParam && n != OrderParam ==> Lookup(next, n) == AsWrittenParam(prev, newFilters, FilterKeys, n)) &&
    Lookup(next, PageParam) == (if FiltersChanged(newFilters, prevFilters) then Some("1") else Lookup(prev, PageParam)) &&
    Lookup(next, OrderParam) == Some(order)
  }

  /** The body of the debounced filter callback, as written: each filter is
      written under its address name when non-empty and otherwise deleted under
      its KEY; "page" goes back to "1" when some filter changed; "order" is
      written; the filters become the applied ones. */
  method ApplyFiltersAsWritten(prev: map<string, string>, newFilters: map<string, string>,
                               prevFilters: map<string, string>, order: string)
      returns (next: map<string, string>, applied: map<string, string>)
    ensures AsWrittenResult(prev, newFilters, prevFilters, order, next)
    ensures applied == newFilters
  {
    var params := new SearchParams.Copy(prev);
    var changed := FiltersChanged(newFilters, prevFilters);
    WriteEachAsWritten(params, newFilters, FilterKeys);
    NotFilterNames(prev, newFilters);
    if changed {
      params.Set(PageParam, "1");
    }
    params.Set(OrderParam, order);
    next := params.entries;
    applied := newFilters;
  }

  /** The `forEach` over the filter entries, as written. */
  method WriteEachAsWritten(params: SearchParams, filters: map<string, string>, keys: seq<string>)
    modifies params
    ensures forall n :: Lookup(params.entries, n) == AsWrittenParam(old(params.entries), filters, keys, n)
  {
    ghost var prev := params.entries;
    var i := 0;
    while i < |keys|
      invariant 0 <= i <= |keys|
      invariant forall n :: Lookup(params.entries, n) == AsWrittenParam(prev, filters, keys[..i], n)
    {
      ghost var before := params.entries;
      var key := keys[i];
      var value := Lookup(filters, key);
      if Truthy(value) {
        params.Set(ParamName(key), value.value);
      } else {
        params.Delete(key);
      }
      forall n
        ensures Lookup(params.entries, n) == AsWrittenParam(prev, filters, keys[..i + 1], n)
      {
        AsWrittenStep(prev, filters, keys, i, n);
        assert Lookup(before, n) == AsWrittenParam(prev, filters, keys[..i], n);
      }
      i := i + 1;
    }
    assert keys[..i] == keys;
  }

  /** Visiting one more filter, as written. */
  lemma AsWrittenStep(prev: map<string, string>, filters: map<string, string>, keys: seq<string>, i: int, n: string)
    requires 0 <= i < |keys|
    ensures var v := Lookup(filters, keys[i]);
            AsWrittenParam(prev, filters, keys[..i + 1], n) ==
            if Truthy(v) && ParamName(keys[i]) == n then v
            else if !Truthy(v) && keys[i] == n then None
            else AsWrittenParam(prev, filters, keys[..i], n)
  {
    assert keys[..i + 1][..i] == keys[..i];
  }

  /** "page" is no filter's key or address name, so the filter loop leaves it. */
  lemma NotFilterNames(prev: map<string, string>, filters: map<string, string>)
    ensures AsWrittenParam(prev, filters, FilterKeys, PageParam) == Lookup(prev, PageParam)
    ensures SyncedParam(prev, filters, FilterKeys, PageParam) == Lookup(prev, PageParam)
  {
    AsWrittenUntouched(prev, filters, FilterKeys, PageParam);
    SyncedUntouched(prev, filters, FilterKeys, PageParam);
  }

  /** A name no visited filter sets or deletes keeps its value. */
  lemma {:induction false} AsWrittenUntouched(prev: map<string, string>, filters: map<string, string>, keys: seq<string>, n: string)
    requires forall j :: 0 <= j < |keys| ==>
      (Truthy(Lookup(filters, keys[j])) ==> ParamName(keys[j]) != n) &&
      (!Truthy(Lookup(filters, keys[j])) ==> keys[j] != n)
    ensures AsWrittenParam(prev, filters, keys, n) == Lookup(prev, n)
    decreases |keys|
  {
    if keys != [] {
      AsWrittenUntouched(prev, filters, keys[..|keys| - 1], n);
    }
  }

  /** A non-empty filter is written under its address name. */
  lemma {:induction false} FilledFilterWritten(prev: map<string, string>, filters: map<string, string>, keys: seq<string>, i: int)
    requires WellNamed(keys) && 0 <= i < |keys| && Truthy(Lookup(filters, keys[i]))
    ensures AsWrittenParam(prev, filters, keys, ParamName(keys[i])) == Lookup(filters, keys[i])
    decreases |keys|
  {
    if i < |keys| - 1 {
      PrefixWellNamed(keys, |keys| - 1);
      FilledFilterWritten(prev, filters, keys[..|keys| - 1], i);
    }
  }

  /** An empty filter removes the parameter named by its key. */
  lemma {:induction false} ClearedFilterDeleted(prev: map<string, string>, filters: map<string, string>, keys: seq<string>, i: int)
    requires WellNamed(keys) && 0 <= i < |keys| && !Truthy(Lookup(filters, keys[i]))
    ensures AsWrittenParam(prev, filters, keys, keys[i]) == None
    decreases |keys|
  {
    if i < |keys| - 1 {
      PrefixWellNamed(keys, |keys| - 1);
      ClearedFilterDeleted(prev, filters, keys[..|keys| - 1], i);
    } else {
      assert ParamName(keys[i]) == keys[i] ==> !Truthy(Lookup(filters, keys[i]));
    }
  }

  /** Clearing the format or type filter leaves its snake_case parameter as it
      was: only the camelCase name, which the address never holds, is deleted. */
  lemma ClearedFormatLingers(prev: map<string, string>, filters: map<string, string>, keys: seq<string>, i: int)
    requires WellNamed(keys) && 0 <= i < |keys| && !Truthy(Lookup(filters, keys[i]))
    requires ParamName(keys[i]) != keys[i]
    ensures AsWrittenParam(prev, filters, keys, ParamName(keys[i])) == Lookup(prev, ParamName(keys[i]))
  {
    AsWrittenUntouched(prev, filters, keys, ParamName(keys[i]));
  }

  /** The filter record read from the address, as the component's initial state
      does: each filter from its address name, a missing one as "". */
  function InitialFilters(params: map<string, string>): (r: map<string, string>)
    ensures forall i :: 0 <= i < |FilterKeys| ==> FilterKeys[i] in r && r[FilterKeys[i]] == OrElse(Lookup(params, ParamName(FilterKeys[i])), "")
    ensures forall k :: k in r ==> k in FilterKeys
  {
    map k | k in FilterKeys :: OrElse(Lookup(params, ParamName(k)), "")
  }

  /** The as-written body loses a cleared format filter: with an address that
      filters by format, clearing the format filter leaves the address filtering
      by it, and reading the filters back restores the old format. */
  lemma ClearedFormatReadsBackStale(prev: map<string, string>, newFilters: map<string, string>,
                                    prevFilters: map<string, string>, order: string, next: map<string, string>)
    requires AsWrittenResult(prev, newFilters, prevFilters, order, next)
    requires Truthy(Lookup(prev, "course_format")) && Lookup(newFilters, "courseFormat") == Some("")
    ensures InitialFilters(next)["courseFormat"] == prev["course_format"] != ""
    ensures InitialFilters(next)["courseFormat"] != newFilters["courseFormat"]
  {
    FilterKeysWellNamed();
    assert FilterKeys[1] == "courseFormat" && ParamName(FilterKeys[1]) == "course_format";
    ClearedFormatLingers(prev, newFilters, FilterKeys, 1);
    assert Lookup(next, "course_format") == Lookup(prev, "course_format");
  }

  /** The value under address name `n` after the corrected body has visited
      `keys`: an empty filter is deleted under its address name, so each visited
      filter's name holds exactly its value. */
  function SyncedParam(prev: map<string, string>, filters: map<string, string>, keys: seq<string>, n: string): Option<string>
    decreases |keys|
  {
    if keys == [] then Lookup(prev, n)
    else
      var key := keys[|keys| - 1];
      var v := Lookup(filters, key);
      if ParamName(key) == n then (if Truthy(v) then v else None)
      else SyncedParam(prev, filters, keys[..|keys| - 1], n)
  }

  /** The parameters the corrected body sets from `prev`. */
  ghost predicate SyncedResult(prev: map<string, string>, newFilters: map<string, string>,
                               prevFilters: map<string, string>, order: string, next: map<string, string>)
  {
    (forall n :: n != PageParam && n != OrderParam ==> Lookup(next, n) == SyncedParam(prev, newFilters, FilterKeys, n)) &&
    Lookup(next, PageParam) == (if FiltersChanged(newFilters, prevFilters) then Some("1") else Lookup(prev, PageParam)) &&
    Lookup(next, OrderParam) == Some(order)
  }

  /** The debounced body with an empty filter deleted under its address name. */
  method ApplyFilters(prev: map<string, string>, newFilters: map<string, string>,
                      prevFilters: map<string, string>, order: string)
      returns (next: map<string, string>, applied: map<string, string>)
    ensures SyncedResult(prev, newFilters, prevFilters, order, next)
    ensures applied == newFilters
  {
    var params := new SearchParams.Copy(prev);
    var changed := FiltersChanged(newFilters, prevFilters);
    WriteEach(params, newFilters, FilterKeys);
    NotFilterNames(prev, newFilters);
    if changed {
      params.Set(PageParam, "1");
    }
    params.Set(OrderParam, order);
    next := params.entries;
    applied := newFilters;
  }

  /** The `forEach` over the filter entries, deleting under the address name. */
  method WriteEach(params: SearchParams, filters: map<string, string>, keys: seq<string>)
    modifies params
    ensures forall n :: Lookup(params.entries, n) == SyncedParam(old(params.entries), filters, keys, n)
  {
    ghost var prev := params.entries;
    var i := 0;
    while i < |keys|
      invariant 0 <= i <= |keys|
      invariant forall n :: Lookup(params.entries, n) == SyncedParam(prev, filters, keys[..i], n)
    {
      ghost var before := params.entries;
      var key := keys[i];
      var value := Lookup(filters, key);
      if Truthy(value) {
        params.Set(ParamName(key), value.value);
      } else {
        params.Delete(ParamName(key));
      }
      forall n
        ensures Lookup(params.entries, n) == SyncedParam(prev, filters, keys[..i + 1], n)
      {
        SyncedStep(prev, filters, keys, i, n);
        assert Lookup(before, n) == SyncedParam(prev, filters, keys[..i], n);
      }
      i := i + 1;
    }
    assert keys[..i] == keys;
  }

  /** Visiting one more filter, with the correction. */
  lemma SyncedStep(prev: map<string, string>, filters: map<string, string>, keys: seq<string>, i: int, n: string)
    requires 0 <= i < |keys|
    ensures var v := Lookup(filters, keys[i]);
            SyncedParam(prev, filters, keys[..i + 1], n) ==
            if ParamName(keys[i]) == n then (if Truthy(v) then v else None)
            else SyncedParam(prev, filters, keys[..i], n)
  {
    assert keys[..i + 1][..i] == keys[..i];
  }

  lemma {:induction false} SyncedUntouched(prev: map<string, string>, filters: map<string, string>, keys: seq<string>, n: string)
    requires forall j :: 0 <= j < |keys| ==> ParamName(keys[j]) != n
    ensures SyncedParam(prev, filters, keys, n) == Lookup(prev, n)
    decreases |keys|
  {
    if keys != [] {
      SyncedUntouched(prev, filters, keys[..|keys| - 1], n);
    }
  }

  /** With the correction, a filter's address name holds the filter's value, or
      nothing when the filter is empty. */
  lemma {:induction false} SyncedReflects(prev: map<string, string>, filters: map<string, string>, keys: seq<string>, i: int)
    requires WellNamed(keys) && 0 <= i < |keys|
    ensures SyncedParam(prev, filters, keys, ParamName(keys[i])) ==
      (if Truthy(Lookup(filters, keys[i])) then Lookup(filters, keys[i]) else None)
    decreases |keys|
  {
    if i < |keys| - 1 {
      PrefixWellNamed(keys, |keys| - 1);
      SyncedReflects(prev, filters, keys[..|keys| - 1], i);
    }
  }

  /** With the correction, the filters read back from the new address are the
      filters just applied (a missing filter reading as ""). */
  lemma SyncedFiltersReadBack(prev: map<string, string>, newFilters: map<string, string>,
                              prevFilters: map<string, string>, order: string, next: map<string, string>)
    requires SyncedResult(prev, newFilters, prevFilters, order, next)
    ensures forall i :: 0 <= i < |FilterKeys| ==> InitialFilters(next)[FilterKeys[i]] == OrElse(Lookup(newFilters, FilterKeys[i]), "")
  {
    FilterKeysWellNamed();
    ReservedNames();
    SyncedReadBack(prev, newFilters, FilterKeys, next);
  }

  /** Whatever the corrected loop over well-named `keys` leaves under the filters'
      address names reads back as the filters. */
  lemma SyncedReadBack(prev: map<string, string>, filters: map<string, string>, keys: seq<string>, next: map<string, string>)
    requires WellNamed(keys)
    requires forall k :: k in keys ==> ParamName(k) != PageParam && ParamName(k) != OrderParam
    requires forall n :: n != PageParam && n != OrderParam ==> Lookup(next, n) == SyncedParam(prev, filters, keys, n)
    ensures forall i :: 0 <= i < |keys| ==> OrElse(Lookup(next, ParamName(keys[i])), "") == OrElse(Lookup(filters, keys[i]), "")
  {
    forall i | 0 <= i < |keys|
      ensures OrElse(Lookup(next, ParamName(keys[i])), "") == OrElse(Lookup(filters, keys[i]), "")
    {
      SyncedReflects(prev, filters, keys, i);
      assert keys[i] in keys;
    }
  }

  /** "page" and "order" are no filter's address name. */
  lemma ReservedNames()
    ensures forall k :: k in FilterKeys ==> ParamName(k) != PageParam && ParamName(k) != OrderParam
  {
  }

  /** Filters whose address names an address lacks all read as "". */
  lemma NoFilterNamed(params: map<string, string>, keys: seq<string>)
    requires forall k :: k in keys ==> ParamName(k) !in params
    ensures (map k | k in keys :: OrElse(Lookup(params, ParamName(k)), "")) == (map k | k in keys :: "")
  {
  }

  /** `handleFilterChange(key)` and `handleDateChange(key)`: the filter record with
      one field replaced. */
  function SetFilter(filters: map<string, string>, key: string, value: string): (r: map<string, string>)
    ensures Lookup(r, key) == Some(value)
    ensures forall k :: k != key ==> Lookup(r, k) == Lookup(filters, k)
  {
    filters[key := value]
  }

  /** Editing a filter to a value other than the applied one makes the next
      debounced run reset the page; re-applying the same filters does not. */
  lemma EditResetsPage(applied: map<string, string>, i: int, value: string)
    requires 0 <= i < |FilterKeys| && Lookup(applied, FilterKeys[i]) != Some(value)
    ensures FiltersChanged(SetFilter(applied, FilterKeys[i], value), applied)
    ensures !FiltersChanged(applied, applied)
  {
    assert Lookup(SetFilter(applied, FilterKeys[i], value), FilterKeys[i]) != Lookup(applied, FilterKeys[i]);
  }

  /** `handleCheckboxChange(key)`: the filter becomes the user's name when ticked
      and "" when unticked. */
  function CheckboxFilter(filters: map<string, string>, key: string, checked: bool, userName: Option<string>): (r: map<string, string>)
    ensures Lookup(r, key) == Some(if checked then OrElse(userName, "") else "")
    ensures forall k :: k != key ==> Lookup(r, k) == Lookup(filters, k)
  {
    SetFilter(filters, key, if checked then OrElse(userName, "") else "")
  }

  /** `handleResetFilters`, the filter part: all fifteen filters empty. */
  function ResetFilters(): (r: map<string, string>)
    ensures forall i :: 0 <= i < |FilterKeys| ==> Lookup(r, FilterKeys[i]) == Some("")
    ensures forall k :: k in r ==> k in FilterKeys
  {
    map k | k in FilterKeys :: ""
  }

  /** `handleResetFilters`, the address part: exactly page 1 in the default order. */
  function ResetParams(): (r: map<string, string>)
    ensures r.Keys == {PageParam, OrderParam}
  {
    map[PageParam := "1", OrderParam := DefaultOrder]
  }

  /** After a reset the table shows page 1, newest first, and the filters read
      back from the address are the empty ones. */
  lemma ResetReadsBack()
    ensures PageNumber(ResetParams()) == 1
    ensures EffectiveOrder(ResetParams()) == DefaultOrder
    ensures InitialFilters(ResetParams()) == ResetFilters()
  {
    assert Lookup(ResetParams(), PageParam) == Some("1");
    assert ParseInt("1") == Some(1) by {
      assert IntToDecimal(1) == "1";
      IntDecimalRoundTrip(1);
    }
    ReservedNames();
    NoFilterNamed(ResetParams(), FilterKeys);
  }
}
