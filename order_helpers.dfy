/** `OrderHelpers`: the split of an identifier into an order id or an order
    number, and the optional filters of the two history queries. */
module OrderHelpers {
  import opened Common
  import opened Text
  import opened Orders

  /** `ParseOrderIdentifier`: a string the Guid parser accepts is an id and
      nothing else; anything else, null included, is passed on as the number. */
  function ParseOrderIdentifier(identifier: Option<string>, parseGuid: GuidParser): (r: (Option<Guid>, Option<string>))
    ensures identifier.Some? && parseGuid(identifier.value).Some? ==>
              r == (parseGuid(identifier.value), None)
    ensures (identifier.None? || parseGuid(identifier.value).None?) ==> r == (None, identifier)
    ensures !(r.0.Some? && r.1.Some?)
    ensures identifier.None? ==> r == (None, None)
  {
    if identifier.Some? && parseGuid(identifier.value).Some? then
      (parseGuid(identifier.value), None)
    else
      (None, identifier)
  }

  /** `Where`: the elements that satisfy `p`, in their original order. */
  function Where(s: seq<Order>, p: Order -> bool): (r: seq<Order>)
    ensures |r| <= |s|
    ensures forall o :: o in r <==> o in s && p(o)
  {
    if s == [] then []
    else if p(s[0]) then [s[0]] + Where(s[1..], p)
    else Where(s[1..], p)
  }

  /** Filtering twice is filtering once by the conjunction. */
  lemma {:induction false} WhereWhere(s: seq<Order>, p: Order -> bool, q: Order -> bool, pq: Order -> bool)
    requires forall o :: pq(o) == (p(o) && q(o))
    ensures Where(Where(s, p), q) == Where(s, pq)
  {
    if s != [] {
      WhereWhere(s[1..], p, q, pq);
      if p(s[0]) {
        assert Where(s, p) == [s[0]] + Where(s[1..], p);
        assert ([s[0]] + Where(s[1..], p))[1..] == Where(s[1..], p);
      }
    }
  }

  /** A filter that keeps everything changes nothing. */
  lemma {:induction false} WhereAll(s: seq<Order>, p: Order -> bool)
    requires forall o :: p(o)
    ensures Where(s, p) == s
  {
    if s != [] {
      WhereAll(s[1..], p);
    }
  }

  /** Filters that agree on every order give the same result. */
  lemma {:induction false} WhereSame(s: seq<Order>, p: Order -> bool, q: Order -> bool)
    requires forall o :: p(o) == q(o)
    ensures Where(s, p) == Where(s, q)
  {
    if s != [] {
      WhereSame(s[1..], p, q);
    }
  }

  /** The conditions `UserFilter` imposes on one order: each filter that is
      given must hold, and the date bounds include their own day. */
  predicate UserMatches(o: Order, orderId: Option<Guid>, orderNumber: Option<string>,
                        initialDate: Option<Date>, finishDate: Option<Date>) {
    && (orderId.Some? ==> o.id == orderId.value)
    && (!IsNullOrWhiteSpace(orderNumber) ==> o.orderNumber == orderNumber.value)
    && (initialDate.Some? ==> o.createAt >= initialDate.value)
    && (finishDate.Some? ==> o.createAt <= finishDate.value)
  }

  /** The username comparison of `AdminFilter`: both sides lower-cased and
      trimmed. */
  predicate SameUserName(stored: string, wanted: string) {
    Trim(Lower(stored)) == Trim(Lower(wanted))
  }

  /** The conditions `AdminFilter` imposes on one order: those of the user
      query, the owner's id when given and the username when not blank. */
  predicate AdminMatches(o: Order, userId: Option<Guid>, userName: Option<string>,
                         orderId: Option<Guid>, orderNumber: Option<string>,
                         initialDate: Option<Date>, finishDate: Option<Date>) {
    && (userId.Some? ==> o.userId == userId.value)
    && (!IsNullOrWhiteSpace(userName) ==> SameUserName(o.userName, userName.value))
    && UserMatches(o, orderId, orderNumber, initialDate, finishDate)
  }

  /** The single conditions the filters chain, one per optional argument. */
  function HasId(id: Guid): Order -> bool { (o: Order) => o.id == id }
  function HasOrderNumber(n: string): Order -> bool { (o: Order) => o.orderNumber == n }
  function CreatedFrom(d: Date): Order -> bool { (o: Order) => o.createAt >= d }
  function CreatedUntil(d: Date): Order -> bool { (o: Order) => o.createAt <= d }
  function HasUserId(id: Guid): Order -> bool { (o: Order) => o.userId == id }
  function HasUserName(n: string): Order -> bool { (o: Order) => SameUserName(o.userName, n) }

  /** `UserFilter`: one conditional `Where` per filter, as in the source. */
  function UserFilter(query: seq<Order>, orderId: Option<Guid>, orderNumber: Option<string>,
                      initialDate: Option<Date>, finishDate: Option<Date>): (r: seq<Order>)
    ensures |r| <= |query|
  {
    var q1 := if orderId.Some? then Where(query, HasId(orderId.value)) else query;
    var q2 := if !IsNullOrWhiteSpace(orderNumber) then Where(q1, HasOrderNumber(orderNumber.value)) else q1;
    var q3 := if initialDate.Some? then Where(q2, CreatedFrom(initialDate.value)) else q2;
    if finishDate.Some? then Where(q3, CreatedUntil(finishDate.value)) else q3
  }

  /** `AdminFilter`: the owner and username filters, then those of `UserFilter`. */
  function AdminFilter(query: seq<Order>, userId: Option<Guid>, userName: Option<string>,
                       orderId: Option<Guid>, orderNumber: Option<string>,
                       initialDate: Option<Date>, finishDate: Option<Date>): (r: seq<Order>)
    ensures |r| <= |query|
  {
    var q1 := if userId.Some? then Where(query, HasUserId(userId.value)) else query;
    var q2 := if !IsNullOrWhiteSpace(userName) then Where(q1, HasUserName(userName.value)) else q1;
    UserFilter(q2, orderId, orderNumber, initialDate, finishDate)
  }

  /** Extending a chain of filters whose conjunction is `cur` by a `Where`
      applied only when `apply` holds gives the conjunction `next`. */
  lemma StepFilter(s: seq<Order>, cur: Order -> bool, apply: bool, cond: Order -> bool, next: Order -> bool)
    requires forall o :: next(o) == (cur(o) && (apply ==> cond(o)))
    ensures (if apply then Where(Where(s, cur), cond) else Where(s, cur)) == Where(s, next)
  {
    if apply {
      WhereWhere(s, cur, cond, next);
    } else {
      WhereSame(s, cur, next);
    }
  }

  /** `UserFilter` keeps, in their original order, exactly the orders that
      satisfy every supplied filter. */
  lemma UserFilterIsConjunction(query: seq<Order>, orderId: Option<Guid>, orderNumber: Option<string>,
                                initialDate: Option<Date>, finishDate: Option<Date>)
    ensures UserFilter(query, orderId, orderNumber, initialDate, finishDate)
            == Where(query, o => UserMatches(o, orderId, orderNumber, initialDate, finishDate))
  {
    var p0 := (o: Order) => true;
    var p1 := (o: Order) => orderId.Some? ==> o.id == orderId.value;
    var p2 := (o: Order) => p1(o) && (!IsNullOrWhiteSpace(orderNumber) ==> o.orderNumber == orderNumber.value);
    var p3 := (o: Order) => p2(o) && (initialDate.Some? ==> o.createAt >= initialDate.value);
    var p4 := (o: Order) => p3(o) && (finishDate.Some? ==> o.createAt <= finishDate.value);
    WhereAll(query, p0);
    StepFilter(query, p0, orderId.Some?, HasId(if orderId.Some? then orderId.value else 0), p1);
    StepFilter(query, p1, !IsNullOrWhiteSpace(orderNumber),
               HasOrderNumber(if orderNumber.Some? then orderNumber.value else ""), p2);
    StepFilter(query, p2, initialDate.Some?, CreatedFrom(if initialDate.Some? then initialDate.value else 0), p3);
    StepFilter(query, p3, finishDate.Some?, CreatedUntil(if finishDate.Some? then finishDate.value else 0), p4);
    WhereSame(query, p4, o => UserMatches(o, orderId, orderNumber, initialDate, finishDate));
  }

  /** An order is kept by `UserFilter` exactly when it is in the input and
      satisfies every supplied filter. */
  lemma UserFilterMembership(query: seq<Order>, o: Order, orderId: Option<Guid>, orderNumber: Option<string>,
                             initialDate: Option<Date>, finishDate: Option<Date>)
    ensures o in UserFilter(query, orderId, orderNumber, initialDate, finishDate)
            <==> o in query && UserMatches(o, orderId, orderNumber, initialDate, finishDate)
  {
    UserFilterIsConjunction(query, orderId, orderNumber, initialDate, finishDate);
  }

  /** The date bounds are inclusive: an order created on the first or on the
      last day of the range is kept. */
  lemma UserFilterKeepsBoundaryDays(query: seq<Order>, o: Order, initialDate: Date, finishDate: Date)
    requires o in query
    requires o.createAt == initialDate || o.createAt == finishDate
    requires initialDate <= finishDate
    ensures o in UserFilter(query, None, None, Some(initialDate), Some(finishDate))
  {
    UserFilterMembership(query, o, None, None, Some(initialDate), Some(finishDate));
  }

  /** `AdminFilter` keeps, in their original order, exactly the orders that
      satisfy every supplied filter, owner and username included. */
  lemma AdminFilterIsConjunction(query: seq<Order>, userId: Option<Guid>, userName: Option<string>,
                                 orderId: Option<Guid>, orderNumber: Option<string>,
                                 initialDate: Option<Date>, finishDate: Option<Date>)
    ensures AdminFilter(query, userId, userName, orderId, orderNumber, initialDate, finishDate)
            == Where(query, o => AdminMatches(o, userId, userName, orderId, orderNumber, initialDate, finishDate))
  {
    var p0 := (o: Order) => true;
    var p1 := (o: Order) => userId.Some? ==> o.userId == userId.value;
    var p2 := (o: Order) => p1(o) && (!IsNullOrWhiteSpace(userName) ==> SameUserName(o.userName, userName.value));
    var u := (o: Order) => UserMatches(o, orderId, orderNumber, initialDate, finishDate);
    WhereAll(query, p0);
    StepFilter(query, p0, userId.Some?, HasUserId(if userId.Some? then userId.value else 0), p1);
    StepFilter(query, p1, !IsNullOrWhiteSpace(userName),
               HasUserName(if userName.Some? then userName.value else ""), p2);
    var q2 := Where(query, p2);
    UserFilterIsConjunction(q2, orderId, orderNumber, initialDate, finishDate);
    WhereWhere(query, p2, u, o => AdminMatches(o, userId, userName, orderId, orderNumber, initialDate, finishDate));
  }

  /** Without an owner id and with a blank username the admin query filters
      exactly as the user query does. */
  lemma AdminFilterWithoutUserIsUserFilter(query: seq<Order>, userName: Option<string>,
                                           orderId: Option<Guid>, orderNumber: Option<string>,
                                           initialDate: Option<Date>, finishDate: Option<Date>)
    requires IsNullOrWhiteSpace(userName)
    ensures AdminFilter(query, None, userName, orderId, orderNumber, initialDate, finishDate)
            == UserFilter(query, orderId, orderNumber, initialDate, finishDate)
  {
  }

  /** With every filter absent or blank both queries return their input. */
  lemma FiltersWithoutArgumentsKeepAll(query: seq<Order>, userName: Option<string>, orderNumber: Option<string>)
    requires IsNullOrWhiteSpace(userName) && IsNullOrWhiteSpace(orderNumber)
    ensures UserFilter(query, None, orderNumber, None, None) == query
    ensures AdminFilter(query, None, userName, None, orderNumber, None, None) == query
  {
  }

  /** Filtering any list by a username alone keeps exactly the orders whose
      stored username equals it after ASCII lowering and trimming on both
      sides. */
  lemma UserNameIgnoresCaseAndPadding(query: seq<Order>, o: Order, wanted: string)
    requires !IsBlank(wanted)
    ensures o in AdminFilter(query, None, Some(wanted), None, None, None, None)
            <==> o in query && Trim(Lower(o.userName)) == Trim(Lower(wanted))
  {
    AdminFilterIsConjunction(query, None, Some(wanted), None, None, None, None);
  }
}
