/** One row of the orders table, src/components/OrderInfo/OrderInfo.tsx: who may
    comment on the order and delete a comment, the comment box, the expand toggle,
    and what the optional cells show. Dispatching `addCommentToOrder` is reported
    as the request the row sends; the slice's reaction is `OrderSlice`. */
module OrderInfo {
  import opened Common
  import opened Entities
  import opened Lists

  const NullText := "null"
  const ManagerRole := "manager"

  /** `orderFromState || order`: the slice's copy of the order when it holds one
      with the same id, else the order the row was given. */
  function CurrentOrder(stateOrders: seq<Order>, order: Order): (r: Order)
    ensures r.id == order.id
    ensures (forall i :: 0 <= i < |stateOrders| ==> stateOrders[i].id != order.id) ==> r == order
    ensures r != order ==> exists i :: IsFirstMatch(stateOrders, OrderId, order.id, i) && r == stateOrders[i]
  {
    var i := FindIndex(stateOrders, OrderId, order.id);
    if i == -1 then order else stateOrders[i]
  }

  /** `canComment`: someone is logged in, and the order has no manager or the
      logged-in user is its manager (compared by username). */
  predicate CanComment(userData: Option<User>, order: Order)
    ensures CanComment(userData, order) ==> userData.Some?
    ensures userData.Some? && order.manager.Some? ==>
      (CanComment(userData, order) <==> order.manager.value.username == userData.value.username)
  {
    userData.Some? && (order.manager.None? || order.manager.value.username == userData.value.username)
  }

  /** A comment's delete button shows when the logged-in user wrote it or has the
      role "manager"; nobody logged in sees none. */
  predicate DeleteVisible(userData: Option<User>, comment: Comment)
    ensures DeleteVisible(userData, comment) ==> userData.Some?
    ensures userData.Some? && userData.value.role == Some(ManagerRole) ==> DeleteVisible(userData, comment)
  {
    userData.Some? && (userData.value.username == comment.author.username || userData.value.role == Some(ManagerRole))
  }

  /** The commenting rule, spelled out: the order's manager may comment, any user
      may comment on an unassigned order, and a user other than the manager may
      not; logged out, nobody may. */
  lemma CommentRule(u: User, order: Order)
    ensures !CanComment(None, order)
    ensures order.manager.None? ==> CanComment(Some(u), order)
    ensures order.manager.Some? ==> (CanComment(Some(u), order) <==> order.manager.value.username == u.username)
  {
  }

  /** Managers may delete any comment; anyone else only their own. */
  lemma DeleteRule(u: User, comment: Comment)
    ensures u.role == Some(ManagerRole) ==> DeleteVisible(Some(u), comment)
    ensures u.role != Some(ManagerRole) ==> (DeleteVisible(Some(u), comment) <==> u.username == comment.author.username)
  {
  }

  /** `x || "null"` on a text cell. */
  function TextCell(value: Option<string>): (r: string)
    ensures Truthy(value) ==> r == value.value
    ensures !Truthy(value) ==> r == NullText
  {
    OrElse(value, NullText)
  }

  /** `x || "null"` on a number cell: 0 is falsy too. */
  function NumberCell(value: Option<int>): (r: string)
    ensures value.Some? && value.value != 0 ==> r == IntToDecimal(value.value)
    ensures value.None? || value.value == 0 ==> r == NullText
  {
    if value.Some? && value.value != 0 then IntToDecimal(value.value) else NullText
  }

  /** A number cell reads "null" exactly when the number is absent or 0, and
      otherwise shows a numeral that reads back as the number. */
  lemma NumberCellNullIff(value: Option<int>)
    ensures NumberCell(value) == NullText <==> value.None? || value.value == 0
    ensures value.Some? && value.value != 0 ==> ParseInt(NumberCell(value)) == value
  {
    if value.Some? && value.value != 0 {
      IntDecimalRoundTrip(value.value);
      assert ParseInt(NullText) == None by {
        assert !IsDigit(NullText[0]);
      }
    }
  }

  /** The sum, paid, group and manager cells. */
  function SumCell(order: Order): string { NumberCell(order.sum) }
  function PaidCell(order: Order): string { NumberCell(order.alreadyPaid) }

  function GroupCell(order: Order): (r: string)
    ensures order.group.None? ==> r == NullText
    ensures order.group.Some? ==> r == TextCell(Some(order.group.value.groupName))
  {
    TextCell(if order.group.Some? then Some(order.group.value.groupName) else None)
  }

  function ManagerCell(order: Order): (r: string)
    ensures order.manager.None? ==> r == NullText
    ensures order.manager.Some? ==> r == TextCell(Some(order.manager.value.username))
  {
    TextCell(if order.manager.Some? then Some(order.manager.value.username) else None)
  }

  /** An unassigned order shows "null" as its manager and may be commented on by
      anyone logged in. */
  lemma UnassignedRow(u: User, order: Order)
    requires order.manager.None?
    ensures ManagerCell(order) == NullText && CanComment(Some(u), order)
  {
  }

  /** `addCommentToOrder({ orderId, text })` */
  datatype AddComment = AddComment(orderId: int, text: string)

  class Row {
    var isExpanded: bool
    var text: string

    constructor ()
      ensures !isExpanded && text == ""
    {
      isExpanded := false;
      text := "";
    }

    /** A click on the row. */
    method ToggleExpand()
      modifies this
      ensures isExpanded == !old(isExpanded) && text == old(text)
    {
      isExpanded := !isExpanded;
    }

    /** Typing in the comment box. */
    method Type(value: string)
      modifies this
      ensures text == value && isExpanded == old(isExpanded)
    {
      text := value;
    }

    /** `handleCommentSubmit`: blank text (empty or only white space) sends
        nothing and keeps the box; otherwise the comment is sent as typed,
        untrimmed, and the box is cleared once the dispatch settles, whatever its
        result. */
    method SubmitComment(orderId: int) returns (sent: Option<AddComment>)
      modifies this
      ensures Trim(old(text)) == "" ==> sent == None && text == old(text)
      ensures Trim(old(text)) != "" ==> sent == Some(AddComment(orderId, old(text))) && text == ""
      ensures isExpanded == old(isExpanded)
    {
      if Trim(text) == "" {
        return None;
      }
      sent := Some(AddComment(orderId, text));
      text := "";
    }
  }

  /** Two clicks leave the row as it was. */
  method ToggleTwice(row: Row)
    modifies row
    ensures row.isExpanded == old(row.isExpanded) && row.text == old(row.text)
  {
    row.ToggleExpand();
    row.ToggleExpand();
  }

  /** Text made only of white space is never sent, and text with a visible
      character always is. */
  method SubmitTyped(row: Row, orderId: int, value: string) returns (sent: Option<AddComment>)
    modifies row
    ensures sent.Some? <==> exists i :: 0 <= i < |value| && !IsJsWhitespace(value[i])
    ensures sent.Some? ==> sent.value.text == value && row.text == ""
  {
    row.Type(value);
    sent := row.SubmitComment(orderId);
    TrimEmptyIffBlank(value);
  }
}
