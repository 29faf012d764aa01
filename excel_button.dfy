/** The export button of src/components/ExcelButton/ExcelButton.tsx. `fetchAllOrders`
    asks the orders endpoint for page 1, 2, 3, ... with the current address minus
    its page, and stops after the first page whose number reaches the page total
    that page's own answer reports; any failure gives an empty list. The endpoint
    is a parameter `fetch`, a function of the request, and the page totals it
    reports are assumed bounded (by `bound`), as the loop needs to end. Writing the
    workbook and saving the file are reduced to the rows and the file name. */
module ExcelButton {
  import opened Common
  import opened Entities

  /** `orderService.getAll(page, undefined, params)`: the order is left out. */
  datatype PageRequest = PageRequest(page: int, order: Option<string>, params: map<string, string>)

  /** One page of the answer, or a failed request. */
  datatype PageResponse = Page(data: seq<Order>, totalPages: int) | FetchError

  /** `Object.fromEntries(searchParams)` without `page`. */
  function ExportParams(params: map<string, string>): (r: map<string, string>)
    ensures "page" !in r
    ensures forall k :: k != "page" ==> Lookup(r, k) == Lookup(params, k)
  {
    params - {"page"}
  }

  function RequestFor(query: map<string, string>, page: int): (r: PageRequest)
    ensures r.page == page && r.order == None && r.params == query
  {
    PageRequest(page, None, query)
  }

  /** Every page total the endpoint reports is at most `bound`. */
  ghost predicate Bounded(fetch: PageRequest -> PageResponse, bound: int)
  {
    forall r :: fetch(r).Page? ==> fetch(r).totalPages <= bound
  }

  /** The pages the loop asks for, starting at `p`: `p`, and then the following
      pages while the answer for the last one says there are more. */
  ghost function PagesFrom(fetch: PageRequest -> PageResponse, query: map<string, string>, bound: int, p: int): seq<int>
    requires Bounded(fetch, bound)
    decreases bound + 1 - p
  {
    var response := fetch(RequestFor(query, p));
    if response.Page? && p + 1 <= response.totalPages then [p] + PagesFrom(fetch, query, bound, p + 1)
    else [p]
  }

  /** The orders the loop collects from page `p` on, or `None` when a request
      fails. */
  ghost function OrdersFrom(fetch: PageRequest -> PageResponse, query: map<string, string>, bound: int, p: int): Option<seq<Order>>
    requires Bounded(fetch, bound)
    decreases bound + 1 - p
  {
    match fetch(RequestFor(query, p))
    case FetchError => None
    case Page(data, total) =>
      if p + 1 <= total then
        match OrdersFrom(fetch, query, bound, p + 1)
        case None => None
        case Some(rest) => Some(data + rest)
      else Some(data)
  }

  /** What `fetchAllOrders` returns. */
  ghost function AllOrders(fetch: PageRequest -> PageResponse, query: map<string, string>, bound: int): seq<Order>
    requires Bounded(fetch, bound)
  {
    match OrdersFrom(fetch, query, bound, 1)
    case None => []
    case Some(orders) => orders
  }

  /** The pages asked for are `p`, `p + 1`, ... with no gap, at least one. */
  lemma {:induction false} PagesConsecutive(fetch: PageRequest -> PageResponse, query: map<string, string>, bound: int, p: int)
    requires Bounded(fetch, bound)
    ensures |PagesFrom(fetch, query, bound, p)| >= 1
    ensures forall i :: 0 <= i < |PagesFrom(fetch, query, bound, p)| ==> PagesFrom(fetch, query, bound, p)[i] == p + i
    decreases bound + 1 - p
  {
    var response := fetch(RequestFor(query, p));
    if response.Page? && p + 1 <= response.totalPages {
      PagesConsecutive(fetch, query, bound, p + 1);
    }
  }

  /** Every page but the last answered with more pages to come; the last one
      failed or reported a total its number reaches. */
  lemma {:induction false} StopsAtReportedTotal(fetch: PageRequest -> PageResponse, query: map<string, string>, bound: int, p: int)
    requires Bounded(fetch, bound)
    ensures var pages := PagesFrom(fetch, query, bound, p);
            (forall i :: 0 <= i < |pages| - 1 ==>
               fetch(RequestFor(query, pages[i])).Page? && pages[i] < fetch(RequestFor(query, pages[i])).totalPages) &&
            (fetch(RequestFor(query, pages[|pages| - 1])).FetchError? ||
             pages[|pages| - 1] >= fetch(RequestFor(query, pages[|pages| - 1])).totalPages)
    decreases bound + 1 - p
  {
    var response := fetch(RequestFor(query, p));
    if response.Page? && p + 1 <= response.totalPages {
      StopsAtReportedTotal(fetch, query, bound, p + 1);
      var rest := PagesFrom(fetch, query, bound, p + 1);
      assert PagesFrom(fetch, query, bound, p) == [p] + rest;
    }
  }

  /** The orders of the given pages, in page order. */
  ghost function DataOf(fetch: PageRequest -> PageResponse, query: map<string, string>, pages: seq<int>): seq<Order>
  {
    if pages == [] then []
    else
      var response := fetch(RequestFor(query, pages[0]));
      (if response.Page? then response.data else []) + DataOf(fetch, query, pages[1..])
  }

  /** One step of the loop: the answer for page `p` decides whether page `p + 1`
      is asked for. */
  lemma Unfold(fetch: PageRequest -> PageResponse, query: map<string, string>, bound: int, p: int)
    requires Bounded(fetch, bound)
    ensures var response := fetch(RequestFor(query, p));
            if response.Page? && p + 1 <= response.totalPages then
              PagesFrom(fetch, query, bound, p) == [p] + PagesFrom(fetch, query, bound, p + 1) &&
              OrdersFrom(fetch, query, bound, p) == Prepend(response.data, OrdersFrom(fetch, query, bound, p + 1))
            else
              PagesFrom(fetch, query, bound, p) == [p] &&
              OrdersFrom(fetch, query, bound, p) == (if response.Page? then Some(response.data) else None)
  {
  }

  function Prepend(data: seq<Order>, rest: Option<seq<Order>>): (r: Option<seq<Order>>)
    ensures r.Some? <==> rest.Some?
    ensures r.Some? ==> r.value == data + rest.value
  {
    if rest.Some? then Some(data + rest.value) else None
  }

  /** What the loop returns once the orders from page `p` on are known: nothing
      when a request failed, else what it already holds followed by them. */
  function Finish(collected: seq<Order>, rest: Option<seq<Order>>): (r: seq<Order>)
    ensures rest.None? ==> r == []
    ensures rest.Some? ==> r == collected + rest.value
  {
    if rest.Some? then collected + rest.value else []
  }

  /** A result exists exactly when every asked-for page answered. */
  lemma {:induction false} SomeIffAllAnswered(fetch: PageRequest -> PageResponse, query: map<string, string>, bound: int, p: int)
    requires Bounded(fetch, bound)
    ensures var pages := PagesFrom(fetch, query, bound, p);
            OrdersFrom(fetch, query, bound, p).Some? <==> (forall i :: 0 <= i < |pages| ==> fetch(RequestFor(query, pages[i])).Page?)
    decreases bound + 1 - p
  {
    Unfold(fetch, query, bound, p);
    var response := fetch(RequestFor(query, p));
    var pages := PagesFrom(fetch, query, bound, p);
    assert pages[0] == p;
    if response.Page? && p + 1 <= response.totalPages {
      SomeIffAllAnswered(fetch, query, bound, p + 1);
      var rest := PagesFrom(fetch, query, bound, p + 1);
      assert forall i :: 1 <= i < |pages| ==> pages[i] == rest[i - 1];
      if forall i :: 0 <= i < |rest| ==> fetch(RequestFor(query, rest[i])).Page? {
        forall i | 0 <= i < |pages|
          ensures fetch(RequestFor(query, pages[i])).Page?
        {
          if i > 0 {
            assert pages[i] == rest[i - 1];
          }
        }
      } else {
        var j :| 0 <= j < |rest| && !fetch(RequestFor(query, rest[j])).Page?;
        assert pages[j + 1] == rest[j];
      }
    }
  }

  /** When no request fails the result is every asked-for page's orders, in page
      order. */
  lemma {:induction false} OrdersAreConcatenation(fetch: PageRequest -> PageResponse, query: map<string, string>, bound: int, p: int)
    requires Bounded(fetch, bound)
    ensures OrdersFrom(fetch, query, bound, p).Some? ==>
            OrdersFrom(fetch, query, bound, p).value == DataOf(fetch, query, PagesFrom(fetch, query, bound, p))
    decreases bound + 1 - p
  {
    Unfold(fetch, query, bound, p);
    var response := fetch(RequestFor(query, p));
    var pages := PagesFrom(fetch, query, bound, p);
    if response.Page? && p + 1 <= response.totalPages {
      OrdersAreConcatenation(fetch, query, bound, p + 1);
      assert pages[1..] == PagesFrom(fetch, query, bound, p + 1);
    } else {
      assert pages[1..] == [];
    }
  }

  /** The loop's bookkeeping across a page that answered: the pages asked for and
      the orders collected so far move forward by one page. */
  lemma Advance(fetch: PageRequest -> PageResponse, query: map<string, string>, bound: int, p: int,
                asked: seq<int>, collected: seq<Order>)
    requires Bounded(fetch, bound) && fetch(RequestFor(query, p)).Page?
    ensures var response := fetch(RequestFor(query, p));
            if p + 1 <= response.totalPages then
              asked + PagesFrom(fetch, query, bound, p) == (asked + [p]) + PagesFrom(fetch, query, bound, p + 1) &&
              Finish(collected, OrdersFrom(fetch, query, bound, p)) ==
              Finish(collected + response.data, OrdersFrom(fetch, query, bound, p + 1))
            else
              asked + PagesFrom(fetch, query, bound, p) == asked + [p] &&
              Finish(collected, OrdersFrom(fetch, query, bound, p)) == collected + response.data
  {
    Unfold(fetch, query, bound, p);
    var response := fetch(RequestFor(query, p));
    if p + 1 <= response.totalPages {
      var rest := OrdersFrom(fetch, query, bound, p + 1);
      if rest.Some? {
        assert collected + (response.data + rest.value) == (collected + response.data) + rest.value;
      }
    }
  }

  /** ... and across a page that failed, the loop ends with nothing. */
  lemma Fail(fetch: PageRequest -> PageResponse, query: map<string, string>, bound: int, p: int,
             asked: seq<int>, collected: seq<Order>)
    requires Bounded(fetch, bound) && fetch(RequestFor(query, p)).FetchError?
    ensures asked + PagesFrom(fetch, query, bound, p) == asked + [p]
    ensures Finish(collected, OrdersFrom(fetch, query, bound, p)) == []
  {
    Unfold(fetch, query, bound, p);
  }

  /** `fetchAllOrders`: the loop, with the requests it sent. */
  method FetchAllOrders(params: map<string, string>, fetch: PageRequest -> PageResponse, ghost bound: int)
      returns (orders: seq<Order>, requests: seq<PageRequest>)
    requires Bounded(fetch, bound)
    ensures orders == AllOrders(fetch, ExportParams(params), bound)
    ensures |requests| == |PagesFrom(fetch, ExportParams(params), bound, 1)|
    ensures forall i :: 0 <= i < |requests| ==>
      requests[i] == RequestFor(ExportParams(params), PagesFrom(fetch, ExportParams(params), bound, 1)[i])
  {
    var query := ExportParams(params);
    ghost var pages := PagesFrom(fetch, query, bound, 1);
    ghost var asked: seq<int> := [];
    var allOrders: seq<Order> := [];
    var page := 1;
    var more := true;
    requests := [];
    while more
      invariant more ==> pages == asked + PagesFrom(fetch, query, bound, page)
      invariant more ==> AllOrders(fetch, query, bound) == Finish(allOrders, OrdersFrom(fetch, query, bound, page))
      invariant !more ==> pages == asked && allOrders == AllOrders(fetch, query, bound)
      invariant |requests| == |asked| && forall i :: 0 <= i < |requests| ==> requests[i] == RequestFor(query, asked[i])
      decreases more, bound + 1 - page
    {
      var request := RequestFor(query, page);
      var response := fetch(request);
      match response {
        case FetchError =>
          Fail(fetch, query, bound, page, asked, allOrders);
          return [], requests + [request];
        case Page(data, total) =>
          Advance(fetch, query, bound, page, asked, allOrders);
          requests := requests + [request];
          asked := asked + [page];
          allOrders := allOrders + data;
          page := page + 1;
          more := page <= total;
      }
    }
    orders := allOrders;
  }

  /** A row of the sheet. The group and the manager are flattened to their names,
      "" when absent. */
  datatype ExportRow = ExportRow(
    id: int, name: string, surname: string, email: string, phone: string, age: Option<int>,
    course: string, courseFormat: string, courseType: string, sum: Option<int>, alreadyPaid: Option<int>,
    utm: string, msg: string, status: string, createdAt: string, group: string, manager: string,
    comments: seq<Comment>)

  function FormatRow(o: Order): (r: ExportRow)
    ensures r.id == o.id && r.comments == o.comments
    ensures r.group == (if o.group.Some? then o.group.value.groupName else "")
    ensures r.manager == (if o.manager.Some? then o.manager.value.username else "")
  {
    ExportRow(o.id, o.name, o.surname, o.email, o.phone, o.age, o.course, o.courseFormat, o.courseType,
      o.sum, o.alreadyPaid, o.utm, o.msg, o.status, o.createdAt,
      if o.group.Some? then o.group.value.groupName else "",
      if o.manager.Some? then o.manager.value.username else "",
      o.comments)
  }

  /** `orders.map(...)`: one row per order, in order. */
  function FormatRows(orders: seq<Order>): (r: seq<ExportRow>)
    ensures |r| == |orders|
    ensures forall i :: 0 <= i < |orders| ==> r[i] == FormatRow(orders[i])
  {
    if orders == [] then [] else [FormatRow(orders[0])] + FormatRows(orders[1..])
  }

  const FileName := "orders.xlsx"
  const SheetName := "Orders"

  /** What pressing the button produces: nothing ("No data to export"), or the
      saved workbook. */
  datatype Export = NoData | File(fileName: string, sheetName: string, rows: seq<ExportRow>)

  /** `exportToExcel`: no file without orders; otherwise one row per order. */
  method ExportToExcel(params: map<string, string>, fetch: PageRequest -> PageResponse, ghost bound: int)
      returns (result: Export)
    requires Bounded(fetch, bound)
    ensures result == NoData <==> AllOrders(fetch, ExportParams(params), bound) == []
    ensures result.File? ==> result.fileName == FileName && result.sheetName == SheetName &&
                             result.rows == FormatRows(AllOrders(fetch, ExportParams(params), bound))
  {
    var orders, _ := FetchAllOrders(params, fetch, bound);
    if |orders| == 0 {
      return NoData;
    }
    result := File(FileName, SheetName, FormatRows(orders));
  }

  /** A failure on any page means no file, even when earlier pages had orders. */
  lemma FailureExportsNothing(fetch: PageRequest -> PageResponse, query: map<string, string>, bound: int, i: int)
    requires Bounded(fetch, bound)
    requires 0 <= i < |PagesFrom(fetch, query, bound, 1)|
    requires fetch(RequestFor(query, PagesFrom(fetch, query, bound, 1)[i])).FetchError?
    ensures AllOrders(fetch, query, bound) == []
  {
    SomeIffAllAnswered(fetch, query, bound, 1);
  }
}
