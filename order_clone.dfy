/** The order table the order page mounts, src/components/OrderTable/OrderClone.tsx.
    It keeps no filter state of its own: every filter, the page and the order are
    read from the address on each render and sent to the orders fetch, and every
    handler edits a copy of the address. */
module OrderClone {
  import opened Common
  import opened Browser
  import opened QueryParams
  import opened OrderTable
  import opened OrderFilters

  /** The names under which the fetch sends the filters to the server. */
  const QueryNames: seq<string> := ["course_format", "course_type", "status", "name", "phone", "course", "email",
    "surname", "group", "age", "alreadyPaid", "sum", "created_at_after", "created_at_before", "manager"]

  /** `searchParams.get(name) || ""` */
  function ReadParam(params: map<string, string>, name: string): (r: string)
    ensures Truthy(Lookup(params, name)) ==> r == params[name]
    ensures !Truthy(Lookup(params, name)) ==> r == ""
  {
    OrElse(Lookup(params, name), "")
  }

  /** The argument of the orders fetch. */
  datatype Query = Query(page: int, order: string, filters: map<string, string>)

  /** What a render asks the server for: the page (1 when missing), the order
      ("-id" when missing) and each filter read under its own address name. */
  function FetchQuery(params: map<string, string>): (q: Query)
    ensures q.page == PageNumber(params) && q.order == EffectiveOrder(params)
    ensures forall i :: 0 <= i < |QueryNames| ==> QueryNames[i] in q.filters && q.filters[QueryNames[i]] == ReadParam(params, QueryNames[i])
    ensures forall k :: k in q.filters ==> k in QueryNames
  {
    Query(PageNumber(params), EffectiveOrder(params), map k | k in QueryNames :: ReadParam(params, k))
  }

  /** The server is asked for every filter's address name, and (address names
      being distinct) for nothing else. */
  lemma QueryNamesAreAddressNames()
    ensures forall i :: 0 <= i < |FilterKeys| ==> ParamName(FilterKeys[i]) in QueryNames
    ensures |QueryNames| == |FilterKeys|
  {
  }

  /** With nothing in the address the table asks for page 1, newest first, no
      filter set. */
  lemma EmptyAddressDefaults()
    ensures FetchQuery(map[]).page == 1 && FetchQuery(map[]).order == DefaultOrder
    ensures forall i :: 0 <= i < |QueryNames| ==> FetchQuery(map[]).filters[QueryNames[i]] == ""
    ensures InitialFilters(map[]) == ResetFilters()
  {
  }

  /** `handleFilterChange(key)` (and `handleDateChange(key)`, whose body is the
      same): the key is set verbatim, even to "", and "page" goes back to "1". */
  method HandleFilterChange(prev: map<string, string>, key: string, value: string) returns (next: map<string, string>)
    ensures key != PageParam ==> Lookup(next, key) == Some(value)
    ensures Lookup(next, PageParam) == Some("1")
    ensures forall k :: k != key && k != PageParam ==> Lookup(next, k) == Lookup(prev, k)
  {
    var params := new SearchParams.Copy(prev);
    params.Set(key, value);
    params.Set(PageParam, "1");
    next := params.entries;
  }

  /** A control's change shows up in the filter bar and in the fetch only when its
      key is its address name: the format and type selects write "courseFormat"
      and "courseType", which nothing reads, so choosing a format or type changes
      neither what is shown nor what is fetched (only the page goes back to 1). */
  method ControlChangeAsWritten(prev: map<string, string>, i: int, value: string) returns (next: map<string, string>)
    requires 0 <= i < |ControlKeys|
    ensures InitialFilters(next)[ControlKeys[i]] == value <==>
      ParamName(ControlKeys[i]) == ControlKeys[i] || InitialFilters(prev)[ControlKeys[i]] == value
    ensures ParamName(ControlKeys[i]) != ControlKeys[i] ==>
      FetchQuery(next).filters == FetchQuery(prev).filters && FetchQuery(next).page == 1
  {
    ControlNameQueried(i);
    CamelKeyUnread(i);
    var key := ControlKeys[i];
    next := HandleFilterChange(prev, key, value);
    ShownAsWritten(prev, next, key, value);
    if ParamName(key) != key {
      UnreadKeyUnsent(prev, next, key);
    }
  }

  /** A control whose key is not its address name reports a key the fetch does
      not read. */
  lemma CamelKeyUnread(i: int)
    requires 0 <= i < |ControlKeys|
    ensures ControlKeys[i] != PageParam
    ensures ParamName(ControlKeys[i]) != ControlKeys[i] ==> ControlKeys[i] !in QueryNames
  {
    ControlKeysWiring();
  }

  /** After writing `value` under `key`, the filter shown for `key` is `value`
      exactly when it is read from `key` itself or already was `value`. */
  lemma ShownAsWritten(prev: map<string, string>, next: map<string, string>, key: string, value: string)
    requires key != PageParam && ParamName(key) != PageParam
    requires Lookup(next, key) == Some(value)
    requires forall k :: k != key && k != PageParam ==> Lookup(next, k) == Lookup(prev, k)
    ensures OrElse(Lookup(next, ParamName(key)), "") == value <==>
      ParamName(key) == key || OrElse(Lookup(prev, ParamName(key)), "") == value
  {
  }

  /** An edit of a name the fetch does not read, with the page reset, leaves the
      fetched filters as they were. */
  lemma UnreadKeyUnsent(prev: map<string, string>, next: map<string, string>, key: string)
    requires key !in QueryNames
    requires Lookup(next, PageParam) == Some("1")
    requires forall k :: k != key && k != PageParam ==> Lookup(next, k) == Lookup(prev, k)
    ensures FetchQuery(next).filters == FetchQuery(prev).filters && FetchQuery(next).page == 1
  {
    PageOne(next);
    PageNotQueried();
    SameReads(prev, next, QueryNames);
  }

  lemma PageNotQueried()
    ensures PageParam !in QueryNames
  {
  }

  /** Two addresses that agree on `names` give the same readings of them. */
  lemma SameReads(a: map<string, string>, b: map<string, string>, names: seq<string>)
    requires forall n :: n in names ==> Lookup(a, n) == Lookup(b, n)
    ensures (map k | k in names :: ReadParam(a, k)) == (map k | k in names :: ReadParam(b, k))
  {
  }

  /** The handler with the control's key mapped to its address name, as the filter
      bar's keys require. */
  method HandleControlChange(prev: map<string, string>, key: string, value: string) returns (next: map<string, string>)
    ensures ParamName(key) != PageParam ==> Lookup(next, ParamName(key)) == Some(value)
    ensures Lookup(next, PageParam) == Some("1")
    ensures forall k :: k != ParamName(key) && k != PageParam ==> Lookup(next, k) == Lookup(prev, k)
  {
    next := HandleFilterChange(prev, ParamName(key), value);
  }

  /** With the mapping every control's new value is what the filter bar then shows
      and what the fetch then sends, on page 1. */
  method ControlChangeReadsBack(prev: map<string, string>, i: int, value: string) returns (next: map<string, string>)
    requires 0 <= i < |ControlKeys|
    ensures Lookup(InitialFilters(next), ControlKeys[i]) == Some(value)
    ensures Lookup(FetchQuery(next).filters, ParamName(ControlKeys[i])) == Some(value)
    ensures FetchQuery(next).page == 1
  {
    ControlNameQueried(i);
    next := HandleControlChange(prev, ControlKeys[i], value);
    ShownAndSent(next, i, value);
  }

  lemma ControlNameQueried(i: int)
    requires 0 <= i < |ControlKeys|
    ensures ControlKeys[i] == FilterKeys[i]
    ensures ParamName(ControlKeys[i]) in QueryNames && ParamName(ControlKeys[i]) != PageParam
  {
    ControlsAreFilters();
    QueryNamesAreAddressNames();
  }

  /** A value stored under a filter's address name is what the bar shows and the
      fetch sends for it. */
  lemma ShownAndSent(params: map<string, string>, i: int, value: string)
    requires 0 <= i < |ControlKeys| && Lookup(params, ParamName(ControlKeys[i])) == Some(value)
    requires Lookup(params, PageParam) == Some("1")
    ensures Lookup(InitialFilters(params), ControlKeys[i]) == Some(value)
    ensures Lookup(FetchQuery(params).filters, ParamName(ControlKeys[i])) == Some(value)
    ensures FetchQuery(params).page == 1
  {
    ControlNameQueried(i);
    PageOne(params);
  }

  /** `handleResetFilters`: the address becomes exactly page 1. */
  function ResetParams(): (r: map<string, string>)
    ensures r.Keys == {PageParam}
  {
    map[PageParam := "1"]
  }

  /** After a reset the table asks for page 1 in the default order "-id" with
      every filter empty, and the filter bar shows every filter empty. */
  lemma ResetReadsBack()
    ensures FetchQuery(ResetParams()).page == 1
    ensures FetchQuery(ResetParams()).order == DefaultOrder
    ensures forall i :: 0 <= i < |QueryNames| ==> FetchQuery(ResetParams()).filters[QueryNames[i]] == ""
    ensures InitialFilters(ResetParams()) == ResetFilters()
  {
    PageOne(ResetParams());
    OnlyPageSet(ResetParams());
  }

  /** With only a page in the address, every filter reads as empty, in the bar and
      in the fetch. */
  lemma OnlyPageSet(params: map<string, string>)
    requires params.Keys <= {PageParam}
    ensures forall i :: 0 <= i < |QueryNames| ==> FetchQuery(params).filters[QueryNames[i]] == ""
    ensures InitialFilters(params) == ResetFilters()
  {
    PageNotQueried();
    ReservedNames();
    EmptyReads(params, QueryNames);
    NoFilterNamed(params, FilterKeys);
  }

  /** Names an address lacks all read as "". */
  lemma EmptyReads(params: map<string, string>, names: seq<string>)
    requires forall n :: n in names ==> n !in params
    ensures forall i :: 0 <= i < |names| ==> (map k | k in names :: ReadParam(params, k))[names[i]] == ""
  {
  }
}
