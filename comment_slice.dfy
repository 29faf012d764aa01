/** The `commentSlice` slice of src/redux/slice/comment.slice.ts. Its two thunks use
    the same action types as the comment thunks of the orders slice, so both
    slices react to the same actions. */
module CommentSlice {
  import opened Common
  import opened Entities
  import opened Lists
  import OrderSlice

  datatype CommentFields = CommentFields(
    groups: seq<Group>,
    orders: seq<Order>,
    page: int,
    totalItems: int,
    totalPages: int,
    isLoading: bool,
    errors: Option<ErrorValue>)

  class CommentState {
    var groups: seq<Group>
    var orders: seq<Order>
    var page: int
    var totalItems: int
    var totalPages: int
    var isLoading: bool
    var errors: Option<ErrorValue>

    function Fields(): CommentFields
      reads this
    {
      CommentFields(groups, orders, page, totalItems, totalPages, isLoading, errors)
    }

    constructor ()
      ensures Fields() == CommentFields([], [], 1, 0, 0, false, None)
    {
      groups := [];
      orders := [];
      page := 1;
      totalItems := 0;
      totalPages := 0;
      isLoading := false;
      errors := None;
    }

    /** `setPage`: changes only `page`. */
    method SetPage(p: int)
      modifies this
      ensures Fields() == old(Fields()).(page := p)
    {
      page := p;
    }

    /** `addCommentToOrder.fulfilled`: every order with the returned order's id is
        replaced by it (a `map`, not a find-first). */
    method AddCommentFulfilled(order: Order)
      modifies this
      ensures Fields() == old(Fields()).(orders := ReplaceAll(old(orders), OrderId, order))
    {
      orders := ReplaceAll(orders, OrderId, order);
    }

    /** `deleteCommentFromOrder.fulfilled`: the comment leaves the first order with
        `orderId`, and loading ends even when no order matches. */
    method DeleteCommentFulfilled(orderId: int, commentId: int)
      modifies this
      ensures Fields() == old(Fields()).(orders := OrderSlice.DropComment(old(orders), orderId, commentId), isLoading := false)
    {
      var index := FindIndex(orders, OrderId, orderId);
      if index != -1 {
        assert forall i :: 0 <= i < |orders| && IsFirstMatch(orders, OrderId, orderId, i) ==> i == index;
        var order := orders[index];
        orders := orders[index := order.(comments := RemoveWhere(order.comments, CommentId, commentId))];
      }
      isLoading := false;
    }

    /** `deleteCommentFromOrder.pending`: only the loading flag. */
    method DeleteCommentPending()
      modifies this
      ensures Fields() == old(Fields()).(isLoading := true)
    {
      isLoading := true;
    }

    /** `deleteCommentFromOrder.rejected` */
    method DeleteCommentRejected(payload: ErrorValue)
      modifies this
      ensures Fields() == old(Fields()).(isLoading := false, errors := Some(payload))
    {
      isLoading := false;
      errors := Some(payload);
    }
  }

  /** When ids are unique the two slices' reactions to an added comment agree:
      replacing every order with the id is replacing the first one. */
  lemma ReplaceAllMatchesReplaceFirst(orders: seq<Order>, order: Order)
    requires forall i, j :: 0 <= i < j < |orders| ==> orders[i].id != orders[j].id
    ensures ReplaceAll(orders, OrderId, order) == ReplaceFirst(orders, OrderId, order)
  {
    var a, b := ReplaceAll(orders, OrderId, order), ReplaceFirst(orders, OrderId, order);
    forall i | 0 <= i < |orders|
      ensures a[i] == b[i]
    {
      if orders[i].id == order.id {
        assert IsFirstMatch(orders, OrderId, order.id, i);
      }
    }
  }
}
