/** The search-parameter updaters that the admin panel and both order tables
    write out identically: moving to another page and flipping the sort order.
    Each is the `prev => newParams` callback given to `setSearchParams`: it copies
    the current parameters, edits the copy and returns it. */
module QueryParams {
  import opened Common
  import opened Browser

  const OrderParam := "order"
  /** Newest orders first. */
  const DefaultOrder := "-id"

  /** `handlePageChange`: a copy of the parameters with "page" set to the new number. */
  method HandlePageChange(prev: map<string, string>, newPage: int) returns (next: map<string, string>)
    ensures Lookup(next, PageParam) == Some(IntToDecimal(newPage))
    ensures forall k :: k != PageParam ==> Lookup(next, k) == Lookup(prev, k)
    ensures next.Keys == prev.Keys + {PageParam}
  {
    var params := new SearchParams.Copy(prev);
    params.Set(PageParam, IntToDecimal(newPage));
    next := params.entries;
  }

  /** After a page change the page read back from the address is the page asked
      for. */
  method PageChangeReadsBack(prev: map<string, string>, newPage: int) returns (next: map<string, string>)
    requires newPage != 0
    ensures PageNumber(next) == newPage
  {
    next := HandlePageChange(prev, newPage);
    assert Lookup(next, PageParam) == Lookup(prev[PageParam := IntToDecimal(newPage)], PageParam);
    PageNumberRoundTrip(prev, newPage);
  }

  /** `params.get("order") || "-id"`: the order the table asks the server for. */
  function EffectiveOrder(params: map<string, string>): (o: string)
    ensures o != ""
    ensures Truthy(Lookup(params, OrderParam)) ==> o == params[OrderParam]
    ensures !Truthy(Lookup(params, OrderParam)) ==> o == DefaultOrder
  {
    OrElse(Lookup(params, OrderParam), DefaultOrder)
  }

  /** A leading '-' is removed, otherwise one is added. */
  function ToggledOrder(current: string): (r: string)
    ensures |current| > 0 && current[0] == '-' ==> current == "-" + r
    ensures !(|current| > 0 && current[0] == '-') ==> r == "-" + current
  {
    if |current| > 0 && current[0] == '-' then current[1..] else "-" + current
  }

  /** The parameters `handleSortToggle` produces from `prev`. */
  function SortToggled(prev: map<string, string>): (r: map<string, string>)
    ensures Lookup(r, OrderParam) == Some(ToggledOrder(EffectiveOrder(prev)))
    ensures forall k :: k != OrderParam ==> Lookup(r, k) == Lookup(prev, k)
  {
    prev[OrderParam := ToggledOrder(EffectiveOrder(prev))]
  }

  /** `handleSortToggle`: only "order" changes, to the toggled effective order. */
  method HandleSortToggle(prev: map<string, string>) returns (next: map<string, string>)
    ensures next == SortToggled(prev)
    ensures Lookup(next, OrderParam) == Some(ToggledOrder(EffectiveOrder(prev)))
    ensures forall k :: k != OrderParam ==> Lookup(next, k) == Lookup(prev, k)
  {
    var params := new SearchParams.Copy(prev);
    var currentOrder := OrElse(params.Get(OrderParam), DefaultOrder);
    var newOrder := if |currentOrder| > 0 && currentOrder[0] == '-' then currentOrder[1..] else "-" + currentOrder;
    params.Set(OrderParam, newOrder);
    next := params.entries;
  }

  /** Two toggles restore the effective order exactly when it neither starts with
      "--" nor is the bare "-": those two lose a '-' that the second toggle does
      not give back ("-" becomes "", which reads as "-id", which toggles to "id"). */
  lemma ToggleTwiceRestores(prev: map<string, string>)
    ensures var o := EffectiveOrder(prev);
            EffectiveOrder(SortToggled(SortToggled(prev))) == o <==>
              !(|o| >= 2 && o[..2] == "--") && o != "-"
  {
    var o := EffectiveOrder(prev);
    var once := SortToggled(prev);
    var t1 := ToggledOrder(o);
    assert Lookup(once, OrderParam) == Some(t1);
    var o1 := EffectiveOrder(once);
    var t2 := ToggledOrder(o1);
    assert Lookup(SortToggled(once), OrderParam) == Some(t2);
    if o[0] == '-' {
      assert t1 == o[1..];
      if t1 == "" {
        assert o == "-";
        assert o1 == DefaultOrder && t2 == "id";
      } else if t1[0] == '-' {
        assert o[..2] == "--";
        assert |t2| < |o|;
      } else {
        assert !(o[..2] == "--");
        assert t2 == "-" + t1 == o;
      }
    } else {
      assert t1 == "-" + o && o1 == t1;
      assert t2 == o;
    }
  }
}
