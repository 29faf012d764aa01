/** The records the API returns and the slices store: users, orders with their
    comments and groups, and the error payloads of rejected requests. Optional
    JSON members are `Option`s; a member the console never reads is left out. */
module Entities {
  import opened Common

  datatype Profile = Profile(firstName: string, lastName: string)

  /** A console account. `isManager` and `isStaff` are optional in the API, and an
      absent flag reads as false; `role` is read by the comment delete check. */
  datatype User = User(
    id: Option<int>,
    email: string,
    username: string,
    isManager: bool,
    isActive: bool,
    isStaff: bool,
    role: Option<string>,
    profile: Option<Profile>)

  datatype Group = Group(id: Option<int>, groupName: string)

  datatype Comment = Comment(id: int, author: User, text: string)

  /** An order (a course application) with its manager, group and comments.
      Nullable numbers (`age`, `sum`, `alreadyPaid`) are `Option<int>`. */
  datatype Order = Order(
    id: int,
    name: string,
    surname: string,
    email: string,
    phone: string,
    age: Option<int>,
    course: string,
    courseFormat: string,
    courseType: string,
    sum: Option<int>,
    alreadyPaid: Option<int>,
    createdAt: string,
    utm: string,
    msg: string,
    status: string,
    manager: Option<User>,
    group: Option<Group>,
    comments: seq<Comment>)

  /** A rejection payload kept in a slice: a plain message, or a response body
      object with an optional `data.detail` and an optional `detail`. */
  datatype ErrorValue = Message(text: string) | Body(dataDetail: Option<string>, detail: Option<string>)

  function OrderId(o: Order): int { o.id }

  function UserId(u: User): Option<int> { u.id }

  function CommentId(c: Comment): int { c.id }
}
