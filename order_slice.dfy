/** The `orders` slice of src/redux/slice/order.slice.ts: the current page of orders
    with its totals, the page number, and the loading and error flags. Each thunk
    appears only through its pending, fulfilled and rejected reducers, whose
    payloads are parameters. */
module OrderSlice {
  import opened Common
  import opened Entities
  import opened Lists

  datatype OrdersFields = OrdersFields(
    orders: seq<Order>,
    totalItems: int,
    totalPages: int,
    currentPage: int,
    isLoading: bool,
    error: Option<ErrorValue>)

  /** The orders after the comment `commentId` is deleted from the first order whose
      id is `orderId`: that order keeps its other comments, every other order is
      untouched. */
  function DropComment(orders: seq<Order>, orderId: int, commentId: int): (r: seq<Order>)
    ensures |r| == |orders|
    ensures forall i :: 0 <= i < |orders| ==>
      r[i] == (if IsFirstMatch(orders, OrderId, orderId, i)
               then orders[i].(comments := RemoveWhere(orders[i].comments, CommentId, commentId))
               else orders[i])
  {
    var index := FindIndex(orders, OrderId, orderId);
    if index == -1 then orders
    else
      assert forall i :: 0 <= i < |orders| && IsFirstMatch(orders, OrderId, orderId, i) ==> i == index;
      orders[index := orders[index].(comments := RemoveWhere(orders[index].comments, CommentId, commentId))]
  }

  /** After the delete no comment with that id is left on the order, and the other
      comments stay in their order: deleting from a joined list is joining the
      deletes. */
  lemma DropCommentEffect(orders: seq<Order>, orderId: int, commentId: int, i: int, before: seq<Comment>, after: seq<Comment>)
    requires IsFirstMatch(orders, OrderId, orderId, i)
    requires orders[i].comments == before + after
    ensures var cs := DropComment(orders, orderId, commentId)[i].comments;
      (forall j :: 0 <= j < |cs| ==> cs[j].id != commentId) &&
      cs == RemoveWhere(before, CommentId, commentId) + RemoveWhere(after, CommentId, commentId)
  {
    RemoveWhereAppend(before, after, CommentId, commentId);
  }

  /** Deleting a comment the order does not have changes nothing. */
  lemma DropAbsentComment(orders: seq<Order>, orderId: int, commentId: int)
    requires forall i :: 0 <= i < |orders| && orders[i].id == orderId ==>
      forall j :: 0 <= j < |orders[i].comments| ==> orders[i].comments[j].id != commentId
    ensures DropComment(orders, orderId, commentId) == orders
  {
    var r := DropComment(orders, orderId, commentId);
    forall i | 0 <= i < |orders|
      ensures r[i] == orders[i]
    {
      if IsFirstMatch(orders, OrderId, orderId, i) {
        RemoveWhereAbsent(orders[i].comments, CommentId, commentId);
      }
    }
  }

  class OrdersState {
    var orders: seq<Order>
    var totalItems: int
    var totalPages: int
    var currentPage: int
    var isLoading: bool
    var error: Option<ErrorValue>

    function Fields(): OrdersFields
      reads this
    {
      OrdersFields(orders, totalItems, totalPages, currentPage, isLoading, error)
    }

    constructor ()
      ensures Fields() == OrdersFields([], 0, 0, 1, false, None)
    {
      orders := [];
      totalItems := 0;
      totalPages := 0;
      currentPage := 1;
      isLoading := false;
      error := None;
    }

    /** `setPage`: changes only `currentPage`. */
    method SetPage(page: int)
      modifies this
      ensures Fields() == old(Fields()).(currentPage := page)
    {
      currentPage := page;
    }

    /** The shared step `index = findIndex(id); if (index !== -1) orders[index] = order`. */
    method OverwriteById(order: Order)
      modifies this
      ensures Fields() == old(Fields()).(orders := ReplaceFirst(old(orders), OrderId, order))
    {
      var index := FindIndex(orders, OrderId, order.id);
      if index != -1 {
        assert forall i :: 0 <= i < |orders| && IsFirstMatch(orders, OrderId, order.id, i) ==> i == index;
        orders := orders[index := order];
      }
    }

    /** `replaceOrder`: the first order with the payload's id is overwritten; with no
        such order nothing changes. */
    method ReplaceOrder(order: Order)
      modifies this
      ensures Fields() == old(Fields()).(orders := ReplaceFirst(old(orders), OrderId, order))
    {
      OverwriteById(order);
    }

    /** `fetchOrders.pending` and `updateOrder.pending`: loading, error cleared. */
    method RequestPending()
      modifies this
      ensures Fields() == old(Fields()).(isLoading := true, error := None)
    {
      isLoading := true;
      error := None;
    }

    /** `fetchOrders.fulfilled`: the page's orders and totals replace the old ones;
        `currentPage` and `error` stay. */
    method FetchFulfilled(data: seq<Order>, totalItems: int, totalPages: int)
      modifies this
      ensures Fields() == old(Fields()).(isLoading := false, orders := data, totalItems := totalItems, totalPages := totalPages)
    {
      isLoading := false;
      orders := data;
      this.totalItems := totalItems;
      this.totalPages := totalPages;
    }

    /** `fetchOrders.rejected` and `updateOrder.rejected`: the orders stay. */
    method RequestRejected(payload: ErrorValue)
      modifies this
      ensures Fields() == old(Fields()).(isLoading := false, error := Some(payload))
    {
      isLoading := false;
      error := Some(payload);
    }

    /** `updateOrder.fulfilled`: loading ends and the updated order replaces the
        first one with its id. */
    method UpdateFulfilled(order: Order)
      modifies this
      ensures Fields() == old(Fields()).(isLoading := false, orders := ReplaceFirst(old(orders), OrderId, order))
    {
      isLoading := false;
      OverwriteById(order);
    }

    /** `addCommentToOrder.fulfilled`: the returned order replaces the first one with
        its id; the flags are not touched. */
    method AddCommentFulfilled(order: Order)
      modifies this
      ensures Fields() == old(Fields()).(orders := ReplaceFirst(old(orders), OrderId, order))
    {
      OverwriteById(order);
    }

    /** `deleteCommentFromOrder.fulfilled`: the comment leaves the first order with
        `orderId`; nothing else changes. */
    method DeleteCommentFulfilled(orderId: int, commentId: int)
      modifies this
      ensures Fields() == old(Fields()).(orders := DropComment(old(orders), orderId, commentId))
    {
      var index := FindIndex(orders, OrderId, orderId);
      if index != -1 {
        assert forall i :: 0 <= i < |orders| && IsFirstMatch(orders, OrderId, orderId, i) ==> i == index;
        var order := orders[index];
        orders := orders[index := order.(comments := RemoveWhere(order.comments, CommentId, commentId))];
      }
    }
  }
}
