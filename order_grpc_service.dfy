/** The spellings of a requested order status: the whitelist of
    `ChangeOrderState`, its tracking-number test, how they relate to the
    pattern on `ChangeStateDto.OrderStatus`, and the declared name each
    admitted spelling stands for. */
module StatusSpelling {
  import opened Common
  import opened Text
  import opened Orders
  import ChangeStateRules

  /** The statuses `ChangeOrderState` lists as valid. The second can never
      equal a string whose spaces were removed. */
  const ListedStates := ["pendiente", "en procesamiento", "enprocesamiento", "enviado", "entregado"]

  /** The whitelist test: the status lower-cased, every space removed. */
  predicate IsListedState(status: string) {
    RemoveSpaces(Lower(status)) in ListedStates
  }

  /** The test of the two tracking-number checks: lower-cased only. */
  predicate NamesShipped(status: string) {
    Lower(status) == "enviado"
  }

  /** A string without white space lower-cases to one without spaces, which
      space removal leaves as it is. */
  lemma NoSpaceKept(s: string)
    requires forall i :: 0 <= i < |s| ==> s[i] != ' ' || Lower(s)[i] != ' '
    ensures RemoveSpaces(Lower(s)) == Lower(s)
  {
  }

  /** The spaced entry of the list is dead: no status, once its spaces are
      removed, equals it. */
  lemma SpacedListedStateNeverMatches(status: string)
    ensures RemoveSpaces(Lower(status)) != "en procesamiento"
  {
    var n := RemoveSpaces(Lower(status));
    if |n| == 16 {
      assert n[2] != ' ';
    }
  }

  /** The statuses the whitelist admits are exactly those whose lower-cased,
      space-free form is one of the four names; "Cancelado" is not one. */
  lemma ListedStatesAreFour(status: string)
    ensures IsListedState(status) <==>
            RemoveSpaces(Lower(status)) in ["pendiente", "enprocesamiento", "enviado", "entregado"]
    ensures RemoveSpaces(Lower(status)) == "cancelado" ==> !IsListedState(status)
  {
    SpacedListedStateNeverMatches(status);
  }

  /** Any spelling of "cancelado" is refused. */
  lemma CancelledIsNotListed(status: string)
    requires Lower(status) == "cancelado"
    ensures !IsListedState(status)
  {
    NoSpaceKept(status);
  }

  /** For a status without white space the gRPC whitelist and the pattern
      on `ChangeStateDto.OrderStatus` admit the same strings. */
  lemma WhitelistAgreesWithPattern(status: string)
    requires forall i :: 0 <= i < |status| ==> !IsWhiteSpace(status[i])
    ensures IsListedState(status) <==> ChangeStateRules.MatchesStatusPattern(status)
  {
    var l := Lower(status);
    NoWhiteSpaceNoSpace(status);
    ChangeStateRules.UnspacedStatusPattern(status);
    assert l != "en procesamiento" by {
      if |l| == 16 {
        assert l[2] != ' ';
      }
    }
  }

  /** Lower-casing a string without white space gives one without spaces,
      which space removal leaves alone. */
  lemma NoWhiteSpaceNoSpace(status: string)
    requires forall i :: 0 <= i < |status| ==> !IsWhiteSpace(status[i])
    ensures forall i :: 0 <= i < |status| ==> Lower(status)[i] != ' '
    ensures RemoveSpaces(Lower(status)) == Lower(status)
  {
    NoSpaceKept(status);
  }

  /** The lower-cased, space-free forms of the spellings used below. */
  lemma LowerOfSpellings()
    ensures Lower("enviado") == "enviado" && Lower(" Enviado") == " enviado"
  {
  }

  /** Space removal on the two shipped spellings. */
  lemma RemoveSpacesOfSpellings()
    ensures RemoveSpaces("enviado") == "enviado" && RemoveSpaces(" enviado") == "enviado"
  {
    var shipped := "enviado";
    assert forall i :: 0 <= i < |shipped| ==> shipped[i] != ' ';
    assert " enviado"[1..] == shipped;
  }

  /** A tab between the words passes the pattern, whose `\s` is any white
      space, but not the whitelist, which removes only spaces. */
  lemma TabPassesPatternOnly()
    ensures ChangeStateRules.MatchesStatusPattern("en\tprocesamiento") && !IsListedState("en\tprocesamiento")
  {
    ChangeStateRules.StatusPatternAcceptsTab();
    TabIsNotListed();
  }

  /** The whitelist refuses the tab spelling: it keeps its tab. */
  lemma TabIsNotListed()
    ensures !IsListedState("en\tprocesamiento")
  {
    var tab := "en\tprocesamiento";
    assert forall i :: 0 <= i < |tab| ==> tab[i] != ' ';
    TabbedNotListed(tab);
  }

  /** No sixteen-letter status without spaces and with a tab in the third
      place is listed. */
  lemma TabbedNotListed(s: string)
    requires |s| == 16 && s[2] == '\t'
    requires forall i :: 0 <= i < |s| ==> s[i] != ' '
    ensures !IsListedState(s)
  {
    NoSpaceKept(s);
    assert Lower(s)[2] == '\t';
  }

  /** A leading space passes the whitelist but not the anchored pattern. */
  lemma PaddedPassesWhitelistOnly()
    ensures IsListedState(" Enviado") && !ChangeStateRules.MatchesStatusPattern(" Enviado")
  {
    ChangeStateRules.StatusPatternRejects();
    ShippedSpellings();
  }

  /** Facts about the spellings "enviado" and " Enviado". */
  lemma ShippedSpellings()
    ensures IsListedState("enviado") && NamesShipped("enviado") && !IsBlank("enviado")
    ensures IsListedState(" Enviado") && !NamesShipped(" Enviado") && !IsBlank(" Enviado")
    ensures RemoveSpaces(Lower(" Enviado")) == "enviado"
    ensures !IsDeclaredStatus("enviado") && !IsBlank("T-1")
  {
    LowerOfSpellings();
    RemoveSpacesOfSpellings();
    assert !IsWhiteSpace("enviado"[0]);
    assert "enviado"[0] != Enviado[0];
    assert " enviado" != "enviado";
    assert !IsWhiteSpace(" Enviado"[1]);
    assert !IsWhiteSpace("T-1"[0]);
  }

  /** The declared name of an admitted status spelling; any other string is
      kept. */
  function CanonicalStatus(status: string): (c: string)
    ensures IsListedState(status) ==> IsDeclaredStatus(c) && c != Cancelado
    ensures IsListedState(status) ==> (c == Enviado <==> RemoveSpaces(Lower(status)) == "enviado")
  {
    var n := RemoveSpaces(Lower(status));
    SpacedListedStateNeverMatches(status);
    if n == "pendiente" then Pendiente
    else if n == "enprocesamiento" then EnProcesamiento
    else if n == "enviado" then Enviado
    else if n == "entregado" then Entregado
    else status
  }
}

/** `OrderGrpcService`: the checks each gRPC handler makes on its request
    before it calls the repository, the resolution of identifiers and dates
    into the repository's arguments, and the handlers themselves as the
    sequence of repository calls and notifications they make. Request
    strings are protocol-buffer strings, which are never null (an absent
    field is the empty string). */
module OrderGrpc {
  import opened Common
  import opened Text
  import opened Orders
  import opened Dto
  import opened OrderHelpers
  import opened StatusSpelling
  import OrderMappers
  import OrderStore
  import Repository

  datatype CreateOrderItemRequest = CreateOrderItemRequest(
    productId: string,
    productName: string,
    quantity: int,
    unitPrice: real)

  datatype CreateOrderRequest = CreateOrderRequest(
    userId: string,
    userName: string,
    userEmail: string,
    address: string,
    items: seq<CreateOrderItemRequest>)

  datatype GetOrderStatusRequest = GetOrderStatusRequest(identifier: string)

  datatype ChangeOrderStateRequest = ChangeOrderStateRequest(
    identifier: string,
    orderStatus: string,
    trackingNumber: string,
    userEmail: string)

  datatype CancelOrderRequest = CancelOrderRequest(
    identifier: string,
    userEmail: string,
    reason: string)

  datatype GetUserOrdersRequest = GetUserOrdersRequest(
    userId: string,
    orderIdentifier: string,
    initialDate: string,
    finishDate: string)

  datatype GetAdminOrdersRequest = GetAdminOrdersRequest(
    userIdentifier: string,
    orderIdentifier: string,
    initialDate: string,
    finishDate: string)

  /** The notification a handler asks the mail service to send. */
  datatype Notification =
    | OrderCreatedMail(to: string, orderNumber: string, userName: string, totalPrice: real)
    | StateChangedMail(to: string, orderNumber: string, orderStatus: string, trackingNumber: string)
    | OrderCancelledMail(to: string, orderNumber: string, reason: string)

  /** The first of `guards` whose defect the request `r` has, if any: the
      error a chain of checks made in the order of `guards` reports. */
  function FirstFailure<R>(defect: (R, Error) -> bool, r: R, guards: seq<Error>): Option<Error>
    decreases |guards|
  {
    if guards == [] then None
    else if defect(r, guards[0]) then Some(guards[0])
    else FirstFailure(defect, r, guards[1..])
  }

  /** No check fails exactly when the request has none of the defects. */
  lemma {:induction false} FirstFailureNone<R>(defect: (R, Error) -> bool, r: R, guards: seq<Error>)
    ensures FirstFailure(defect, r, guards).None? <==> forall k :: 0 <= k < |guards| ==> !defect(r, guards[k])
    decreases |guards|
  {
    if guards != [] {
      FirstFailureNone(defect, r, guards[1..]);
      assert forall k :: 1 <= k < |guards| ==> guards[k] == guards[1..][k - 1];
    }
  }

  /** The reported check fails, and every check before it passes. */
  lemma {:induction false} FirstFailureSome<R>(defect: (R, Error) -> bool, r: R, guards: seq<Error>)
    requires FirstFailure(defect, r, guards).Some?
    ensures exists k :: 0 <= k < |guards| && guards[k] == FirstFailure(defect, r, guards).value
                        && defect(r, guards[k]) && forall j :: 0 <= j < k ==> !defect(r, guards[j])
    decreases |guards|
  {
    if !defect(r, guards[0]) {
      FirstFailureSome(defect, r, guards[1..]);
      var k :| 0 <= k < |guards[1..]| && guards[1..][k] == FirstFailure(defect, r, guards[1..]).value
               && defect(r, guards[1..][k]) && forall j :: 0 <= j < k ==> !defect(r, guards[1..][j]);
      assert guards[k + 1] == guards[1..][k];
      forall j | 0 <= j < k + 1 ensures !defect(r, guards[j]) {
        if j > 0 {
          assert guards[j] == guards[1..][j - 1];
        }
      }
    }
  }

  // ---------------------------------------------------------------------
  // CreateOrder

  /** The checks of `CreateOrder`, in the order it makes them. */
  const CreateOrderGuards := [MissingUserId, MissingUserName, MissingAddress, MissingItems,
                              ProductWithoutId, ProductWithoutName, NonPositiveQuantity, NonPositivePrice]

  /** The four `Items.Any` tests of `CreateOrder`. */
  predicate SomeItemWithoutId(items: seq<CreateOrderItemRequest>) {
    exists i :: 0 <= i < |items| && IsBlank(items[i].productId)
  }
  predicate SomeItemWithoutName(items: seq<CreateOrderItemRequest>) {
    exists i :: 0 <= i < |items| && IsBlank(items[i].productName)
  }
  predicate SomeItemWithoutQuantity(items: seq<CreateOrderItemRequest>) {
    exists i :: 0 <= i < |items| && items[i].quantity <= 0
  }
  predicate SomeItemWithoutPrice(items: seq<CreateOrderItemRequest>) {
    exists i :: 0 <= i < |items| && items[i].unitPrice <= 0.0
  }

  /** Whether the request has the defect that `guard` reports. */
  predicate CreateOrderDefect(r: CreateOrderRequest, guard: Error) {
    match guard
    case MissingUserId => IsBlank(r.userId)
    case MissingUserName => IsBlank(r.userName)
    case MissingAddress => IsBlank(r.address)
    case MissingItems => r.items == []
    case ProductWithoutId => SomeItemWithoutId(r.items)
    case ProductWithoutName => SomeItemWithoutName(r.items)
    case NonPositiveQuantity => SomeItemWithoutQuantity(r.items)
    case NonPositivePrice => SomeItemWithoutPrice(r.items)
    case _ => false
  }

  /** A request every check of `CreateOrder` lets through. */
  predicate IsCompleteOrderRequest(r: CreateOrderRequest) {
    && !IsBlank(r.userId) && !IsBlank(r.userName) && !IsBlank(r.address)
    && r.items != []
    && forall i :: 0 <= i < |r.items| ==>
         && !IsBlank(r.items[i].productId) && !IsBlank(r.items[i].productName)
         && r.items[i].quantity > 0 && r.items[i].unitPrice > 0.0
  }

  /** `CreateOrder`'s input checks: the error of the first that fails. */
  function CreateOrderRejection(r: CreateOrderRequest): (e: Option<Error>)
    ensures e.None? <==> IsCompleteOrderRequest(r)
  {
    if IsBlank(r.userId) then Some(MissingUserId)
    else if IsBlank(r.userName) then Some(MissingUserName)
    else if IsBlank(r.address) then Some(MissingAddress)
    else if r.items == [] then Some(MissingItems)
    else if SomeItemWithoutId(r.items) then Some(ProductWithoutId)
    else if SomeItemWithoutName(r.items) then Some(ProductWithoutName)
    else if SomeItemWithoutQuantity(r.items) then Some(NonPositiveQuantity)
    else if SomeItemWithoutPrice(r.items) then Some(NonPositivePrice)
    else None
  }

  /** `FirstFailure` over the eight checks, one step at a time. */
  lemma CreateOrderGuardsUnfold(r: CreateOrderRequest)
    ensures FirstFailure(CreateOrderDefect, r, CreateOrderGuards) ==
              if CreateOrderDefect(r, MissingUserId) then Some(MissingUserId)
              else if CreateOrderDefect(r, MissingUserName) then Some(MissingUserName)
              else if CreateOrderDefect(r, MissingAddress) then Some(MissingAddress)
              else if CreateOrderDefect(r, MissingItems) then Some(MissingItems)
              else if CreateOrderDefect(r, ProductWithoutId) then Some(ProductWithoutId)
              else if CreateOrderDefect(r, ProductWithoutName) then Some(ProductWithoutName)
              else if CreateOrderDefect(r, NonPositiveQuantity) then Some(NonPositiveQuantity)
              else if CreateOrderDefect(r, NonPositivePrice) then Some(NonPositivePrice)
              else None
  {
    var gs := CreateOrderGuards;
    assert gs[1..][1..][1..][1..][1..][1..][1..][1..] == [];
  }

  /** `CreateOrderRejection` reports the first of `CreateOrderGuards` that fails. */
  lemma CreateOrderRejectionIsFirstFailure(r: CreateOrderRequest)
    ensures CreateOrderRejection(r) == FirstFailure(CreateOrderDefect, r, CreateOrderGuards)
  {
    CreateOrderGuardsUnfold(r);
    var items := r.items;
    if IsBlank(r.userId) {
      assert CreateOrderDefect(r, MissingUserId);
    } else if IsBlank(r.userName) {
      assert CreateOrderDefect(r, MissingUserName);
    } else if IsBlank(r.address) {
      assert CreateOrderDefect(r, MissingAddress);
    } else if items == [] {
      assert CreateOrderDefect(r, MissingItems);
    } else if SomeItemWithoutId(items) {
      assert CreateOrderDefect(r, ProductWithoutId);
    } else if SomeItemWithoutName(items) {
      assert CreateOrderDefect(r, ProductWithoutName);
    } else if SomeItemWithoutQuantity(items) {
      assert CreateOrderDefect(r, NonPositiveQuantity);
    } else if SomeItemWithoutPrice(items) {
      assert CreateOrderDefect(r, NonPositivePrice);
    } else {
      assert !CreateOrderDefect(r, NonPositivePrice);
    }
  }

  /** `CreateOrder`'s construction of the repository request: `Guid.Parse`
      of the user id and of every product id, the name, address and items
      copied, and no e-mail (the field keeps its empty default). The input
      checks come first; a malformed id throws only after them. */
  function BuildCreateOrderDto(r: CreateOrderRequest, parseGuid: GuidParser): (d: Result<CreateOrderDto>)
    ensures CreateOrderRejection(r).Some? ==> d == Err(CreateOrderRejection(r).value)
    ensures CreateOrderRejection(r).None? && parseGuid(r.userId).None? ==> d == Err(MalformedGuid)
    ensures CreateOrderRejection(r).None? && (exists i :: 0 <= i < |r.items| && parseGuid(r.items[i].productId).None?)
            ==> d == Err(MalformedGuid)
    ensures CreateOrderRejection(r).None? && parseGuid(r.userId).Some?
            && (forall i :: 0 <= i < |r.items| ==> parseGuid(r.items[i].productId).Some?)
            ==> d.Ok?
    ensures d.Ok? ==> && IsCompleteOrderRequest(r)
                      && Some(d.value.userId) == parseGuid(r.userId)
                      && d.value.userName == r.userName && d.value.address == r.address
                      && d.value.userEmail == ""
                      && |d.value.items| == |r.items|
                      && forall i :: 0 <= i < |r.items| ==>
                           && Some(d.value.items[i].productId) == parseGuid(r.items[i].productId)
                           && d.value.items[i].productName == r.items[i].productName
                           && d.value.items[i].quantity == r.items[i].quantity
                           && d.value.items[i].unitPrice == r.items[i].unitPrice
  {
    var rejection := CreateOrderRejection(r);
    if rejection.Some? then Err(rejection.value)
    else if parseGuid(r.userId).None? then Err(MalformedGuid)
    else if exists i :: 0 <= i < |r.items| && parseGuid(r.items[i].productId).None? then Err(MalformedGuid)
    else
      var items := seq(|r.items|, i requires 0 <= i < |r.items| =>
                         CreateOrderItemDto(parseGuid(r.items[i].productId).value, r.items[i].productName,
                                            r.items[i].quantity, r.items[i].unitPrice));
      Ok(CreateOrderDto(parseGuid(r.userId).value, r.userName, "", r.address, items))
  }

  /** A request `CreateOrder` accepts yields an order whose total is
      positive, since every item has a positive quantity and unit price. */
  lemma AcceptedOrderHasPositiveTotal(r: CreateOrderRequest, parseGuid: GuidParser,
                                      id: Guid, orderNumber: string, today: Date)
    requires BuildCreateOrderDto(r, parseGuid).Ok?
    ensures OrderTotal(OrderStore.NewOrder(BuildCreateOrderDto(r, parseGuid).value, id, orderNumber, today)) > 0.0
  {
    var o := OrderStore.NewOrder(BuildCreateOrderDto(r, parseGuid).value, id, orderNumber, today);
    TotalPricePositive(o.items);
  }

  // ---------------------------------------------------------------------
  // ChangeOrderState

  /** The checks of `ChangeOrderState`, in the order it makes them. */
  const ChangeStateGuards := [MissingIdentifier, MissingOrderStatus, InvalidOrderStatus,
                              TrackingNumberRequired, TrackingNumberNotAllowed]

  /** Whether the request has the defect that `guard` reports. */
  predicate ChangeStateDefect(r: ChangeOrderStateRequest, guard: Error) {
    match guard
    case MissingIdentifier => IsBlank(r.identifier)
    case MissingOrderStatus => IsBlank(r.orderStatus)
    case InvalidOrderStatus => !IsListedState(r.orderStatus)
    case TrackingNumberRequired => IsBlank(r.trackingNumber) && NamesShipped(r.orderStatus)
    case TrackingNumberNotAllowed => !IsBlank(r.trackingNumber) && !NamesShipped(r.orderStatus)
    case _ => false
  }

  /** `ChangeOrderState`'s input checks: the error of the first that fails. */
  function ChangeStateRejection(r: ChangeOrderStateRequest): (e: Option<Error>)
    ensures e.None? <==> && !IsBlank(r.identifier) && !IsBlank(r.orderStatus) && IsListedState(r.orderStatus)
                         && (IsBlank(r.trackingNumber) <==> !NamesShipped(r.orderStatus))
  {
    if IsBlank(r.identifier) then Some(MissingIdentifier)
    else if IsBlank(r.orderStatus) then Some(MissingOrderStatus)
    else if !IsListedState(r.orderStatus) then Some(InvalidOrderStatus)
    else if IsBlank(r.trackingNumber) && NamesShipped(r.orderStatus) then Some(TrackingNumberRequired)
    else if !IsBlank(r.trackingNumber) && !NamesShipped(r.orderStatus) then Some(TrackingNumberNotAllowed)
    else None
  }

  /** `FirstFailure` over the five checks, one step at a time. */
  lemma ChangeStateGuardsUnfold(r: ChangeOrderStateRequest)
    ensures FirstFailure(ChangeStateDefect, r, ChangeStateGuards) ==
              if ChangeStateDefect(r, MissingIdentifier) then Some(MissingIdentifier)
              else if ChangeStateDefect(r, MissingOrderStatus) then Some(MissingOrderStatus)
              else if ChangeStateDefect(r, InvalidOrderStatus) then Some(InvalidOrderStatus)
              else if ChangeStateDefect(r, TrackingNumberRequired) then Some(TrackingNumberRequired)
              else if ChangeStateDefect(r, TrackingNumberNotAllowed) then Some(TrackingNumberNotAllowed)
              else None
  {
    var gs := ChangeStateGuards;
    assert gs[1..][1..][1..][1..][1..] == [];
  }

  /** `ChangeStateRejection` reports the first of `ChangeStateGuards` that fails. */
  lemma ChangeStateRejectionIsFirstFailure(r: ChangeOrderStateRequest)
    ensures ChangeStateRejection(r) == FirstFailure(ChangeStateDefect, r, ChangeStateGuards)
  {
    ChangeStateGuardsUnfold(r);
    var listed := IsListedState(r.orderStatus);
    var shipped := NamesShipped(r.orderStatus);
    var blank := IsBlank(r.trackingNumber);
    if IsBlank(r.identifier) {
      assert ChangeStateDefect(r, MissingIdentifier);
    } else if IsBlank(r.orderStatus) {
      assert ChangeStateDefect(r, MissingOrderStatus);
    } else if !listed {
      assert ChangeStateDefect(r, InvalidOrderStatus);
    } else if blank && shipped {
      assert ChangeStateDefect(r, TrackingNumberRequired);
    } else if !blank && !shipped {
      assert ChangeStateDefect(r, TrackingNumberNotAllowed);
    } else {
      assert !ChangeStateDefect(r, TrackingNumberNotAllowed);
    }
  }

  /** The repository request `ChangeOrderState` builds: the status as given
      and the tracking number, empty when the request has none. */
  function ToChangeStateDto(r: ChangeOrderStateRequest): (d: ChangeStateDto)
    ensures d.orderStatus == r.orderStatus && d.trackingNumber == Some(r.trackingNumber)
  {
    ChangeStateDto(r.orderStatus, Some(r.trackingNumber))
  }

  /** A request to cancel through a change of state is refused as an invalid
      status, once the identifier is there. */
  lemma ChangeToCancelledIsRejected(r: ChangeOrderStateRequest)
    requires !IsBlank(r.identifier)
    requires Lower(r.orderStatus) == "cancelado"
    ensures ChangeStateRejection(r) == Some(InvalidOrderStatus)
  {
    CancelledIsNotListed(r.orderStatus);
    assert !IsBlank(r.orderStatus) by {
      assert Lower(r.orderStatus)[0] == 'c';
    }
  }

  /** As written, a lower-case "enviado" with a tracking number passes every
      check and is stored as given; the order then carries a status outside
      the declared names, and the exact-case guard of `CancelateOrder` lets
      the shipped order be cancelled. */
  lemma LowerCaseShippedOrderCanBeCancelled(o: Order, identifier: string, email: string, today: Date, later: Date)
    requires !IsBlank(identifier)
    ensures var r := ChangeOrderStateRequest(identifier, "enviado", "T-1", email);
            var shipped := OrderStore.WithNewState(o, ToChangeStateDto(r), today);
            && ChangeStateRejection(r).None?
            && shipped.trackingNumber == Some("T-1")
            && !IsDeclaredStatus(shipped.orderStatus)
            && OrderStore.CancelOutcome(shipped, later).Ok?
  {
    ShippedSpellings();
  }

  /** As written, " Enviado" without a tracking number passes every check:
      the whitelist removes the space, the tracking checks do not. */
  lemma PaddedShippedStatusSkipsTrackingCheck(o: Order, identifier: string, email: string, today: Date)
    requires !IsBlank(identifier) && o.trackingNumber.None?
    ensures var r := ChangeOrderStateRequest(identifier, " Enviado", "", email);
            var shipped := OrderStore.WithNewState(o, ToChangeStateDto(r), today);
            && ChangeStateRejection(r).None?
            && RemoveSpaces(Lower(r.orderStatus)) == "enviado"
            && shipped.trackingNumber.None?
  {
    ShippedSpellings();
  }

  /** The checks of `ChangeOrderState` with the tracking-number checks made
      on the same normalised status as the whitelist. */
  function CorrectedChangeStateRejection(r: ChangeOrderStateRequest): (e: Option<Error>)
    ensures e.None? <==> && !IsBlank(r.identifier) && !IsBlank(r.orderStatus) && IsListedState(r.orderStatus)
                         && (IsBlank(r.trackingNumber) <==> CanonicalStatus(r.orderStatus) != Enviado)
    ensures ChangeStateRejection(r) in {Some(MissingIdentifier), Some(MissingOrderStatus), Some(InvalidOrderStatus)}
            ==> e == ChangeStateRejection(r)
  {
    var shipped := CanonicalStatus(r.orderStatus) == Enviado;
    if IsBlank(r.identifier) then Some(MissingIdentifier)
    else if IsBlank(r.orderStatus) then Some(MissingOrderStatus)
    else if !IsListedState(r.orderStatus) then Some(InvalidOrderStatus)
    else if IsBlank(r.trackingNumber) && shipped then Some(TrackingNumberRequired)
    else if !IsBlank(r.trackingNumber) && !shipped then Some(TrackingNumberNotAllowed)
    else None
  }

  /** The repository request with the status in its declared spelling. */
  function CorrectedChangeStateDto(r: ChangeOrderStateRequest): (d: ChangeStateDto)
    ensures d.orderStatus == CanonicalStatus(r.orderStatus) && d.trackingNumber == Some(r.trackingNumber)
  {
    ChangeStateDto(CanonicalStatus(r.orderStatus), Some(r.trackingNumber))
  }

  /** With the corrections every accepted change stores a declared status
      other than "Cancelado", an order moved to "Enviado" carries a tracking
      number, and `CancelateOrder` then refuses to cancel it. */
  lemma CorrectedChangeKeepsShippedOrdersShipped(o: Order, r: ChangeOrderStateRequest, today: Date, later: Date)
    requires CorrectedChangeStateRejection(r).None?
    ensures var n := OrderStore.WithNewState(o, CorrectedChangeStateDto(r), today);
            && IsDeclaredStatus(n.orderStatus) && n.orderStatus != Cancelado
            && (n.orderStatus == Enviado ==> n.trackingNumber == Some(r.trackingNumber) && !IsBlank(r.trackingNumber))
            && (n.orderStatus == Enviado ==> OrderStore.CancelOutcome(n, later) == Err(AlreadyShipped))
  {
  }

  // ---------------------------------------------------------------------
  // Identifier and date resolution

  /** `GetOrderStatus` and `CancelOrder` check only that the identifier is
      not blank. */
  function IdentifierRejection(identifier: string): (e: Option<Error>)
    ensures e.None? <==> !IsBlank(identifier)
    ensures e.Some? ==> e.value == MissingIdentifier
  {
    if IsBlank(identifier) then Some(MissingIdentifier) else None
  }

  /** A history date: blank means no bound, anything else goes through
      `DateOnly.Parse`, which throws on a malformed date. */
  function ResolveDate(s: string, parseDate: DateParser): (r: Result<Option<Date>>)
    ensures IsBlank(s) ==> r == Ok(None)
    ensures !IsBlank(s) && parseDate(s).None? ==> r == Err(MalformedDate)
    ensures !IsBlank(s) && parseDate(s).Some? ==> r == Ok(parseDate(s))
  {
    if IsBlank(s) then Ok(None)
    else if parseDate(s).None? then Err(MalformedDate)
    else Ok(parseDate(s))
  }

  /** The arguments of a history query. */
  datatype HistoryQuery = HistoryQuery(
    userId: Option<Guid>,
    userName: Option<string>,
    orderId: Option<Guid>,
    orderNumber: Option<string>,
    initialDate: Option<Date>,
    finishDate: Option<Date>)

  /** `GetUserOrders`: a user id is required and must parse, then the order
      identifier is split and each date resolved, the initial one first. */
  function ResolveUserQuery(r: GetUserOrdersRequest, parseGuid: GuidParser, parseDate: DateParser)
    : (q: Result<HistoryQuery>)
    ensures IsBlank(r.userId) ==> q == Err(MissingUserId)
    ensures !IsBlank(r.userId) && parseGuid(r.userId).None? ==> q == Err(MalformedGuid)
    ensures q.Err? ==> q.error in {MissingUserId, MalformedGuid, MalformedDate}
    ensures q.Err? && q.error == MalformedDate ==>
              ResolveDate(r.initialDate, parseDate).Err? || ResolveDate(r.finishDate, parseDate).Err?
    ensures q.Ok? ==> && !IsBlank(r.userId) && q.value.userId == parseGuid(r.userId) && q.value.userName.None?
                      && (q.value.orderId, q.value.orderNumber) == ParseOrderIdentifier(Some(r.orderIdentifier), parseGuid)
                      && Ok(q.value.initialDate) == ResolveDate(r.initialDate, parseDate)
                      && Ok(q.value.finishDate) == ResolveDate(r.finishDate, parseDate)
  {
    if IsBlank(r.userId) then Err(MissingUserId)
    else if parseGuid(r.userId).None? then Err(MalformedGuid)
    else
      var (orderId, orderNumber) := ParseOrderIdentifier(Some(r.orderIdentifier), parseGuid);
      var initialDate := ResolveDate(r.initialDate, parseDate);
      if initialDate.Err? then Err(initialDate.error)
      else
        var finishDate := ResolveDate(r.finishDate, parseDate);
        if finishDate.Err? then Err(finishDate.error)
        else Ok(HistoryQuery(parseGuid(r.userId), None, orderId, orderNumber, initialDate.value, finishDate.value))
  }

  /** `GetAdminOrders`' split of the user identifier: a Guid is the owner
      filter, anything else the username filter. */
  function SplitUserIdentifier(s: string, parseGuid: GuidParser): (r: (Option<Guid>, Option<string>))
    ensures parseGuid(s).Some? ==> r == (parseGuid(s), None)
    ensures parseGuid(s).None? ==> r == (None, Some(s))
  {
    if parseGuid(s).Some? then (parseGuid(s), None) else (None, Some(s))
  }

  /** The split of the user identifier is that of the order identifier. */
  lemma SplitUserIdentifierIsParseOrderIdentifier(s: string, parseGuid: GuidParser)
    ensures SplitUserIdentifier(s, parseGuid) == ParseOrderIdentifier(Some(s), parseGuid)
  {
  }

  /** `GetAdminOrders`: nothing is required; the two identifiers are split
      and each date resolved, the initial one first. */
  function ResolveAdminQuery(r: GetAdminOrdersRequest, parseGuid: GuidParser, parseDate: DateParser)
    : (q: Result<HistoryQuery>)
    ensures q.Err? ==> q.error == MalformedDate
    ensures IsBlank(r.initialDate) && IsBlank(r.finishDate) ==> q.Ok?
    ensures q.Ok? ==> && (q.value.userId, q.value.userName) == SplitUserIdentifier(r.userIdentifier, parseGuid)
                      && (q.value.orderId, q.value.orderNumber) == ParseOrderIdentifier(Some(r.orderIdentifier), parseGuid)
                      && Ok(q.value.initialDate) == ResolveDate(r.initialDate, parseDate)
                      && Ok(q.value.finishDate) == ResolveDate(r.finishDate, parseDate)
  {
    var (userId, userName) := SplitUserIdentifier(r.userIdentifier, parseGuid);
    var (orderId, orderNumber) := ParseOrderIdentifier(Some(r.orderIdentifier), parseGuid);
    var initialDate := ResolveDate(r.initialDate, parseDate);
    if initialDate.Err? then Err(initialDate.error)
    else
      var finishDate := ResolveDate(r.finishDate, parseDate);
      if finishDate.Err? then Err(finishDate.error)
      else Ok(HistoryQuery(userId, userName, orderId, orderNumber, initialDate.value, finishDate.value))
  }

  /** An admin request whose fields are all empty lists every order: no
      filter is applied and the repository's only error is an empty table. */
  lemma EmptyAdminRequestListsAll(orders: seq<Order>, parseGuid: GuidParser, parseDate: DateParser)
    requires parseGuid("").None?
    ensures var q := ResolveAdminQuery(GetAdminOrdersRequest("", "", "", ""), parseGuid, parseDate);
            && q == Ok(HistoryQuery(None, Some(""), None, Some(""), None, None))
            && OrderStore.GetAllOrdersAdmin(orders, None, Some(""), None, Some(""), None, None)
               == (if orders == [] then Err(NoResults) else Ok(OrderStore.ToAdminResponses(orders)))
  {
    FiltersWithoutArgumentsKeepAll(orders, Some(""), Some(""));
  }

  // ---------------------------------------------------------------------
  // The handlers

  /** The service: the repository it calls and the notifications it has
      asked the mail service to send, oldest first. */
  class OrderGrpcService {
    const repository: Repository.OrderRepository
    var sent: seq<Notification>

    constructor(repository: Repository.OrderRepository)
      ensures this.repository == repository && sent == []
    {
      this.repository := repository;
      sent := [];
    }

    /** `CreateOrder`: a request the checks or `Guid.Parse` refuse changes
        nothing; otherwise the repository adds the order and the creation
        mail goes to the request's address. */
    method CreateOrder(request: CreateOrderRequest, parseGuid: GuidParser, newId: Guid, today: Date, draws: seq<OrderStore.Draw>)
        returns (r: Result<ResponseCreateOrderDto>)
      requires repository.Valid()
      requires forall k :: 0 <= k < |repository.orders| ==> repository.orders[k].id != newId
      requires exists i :: 0 <= i < |draws| && !OrderStore.NumberTaken(repository.orders, OrderStore.OrderNumberOf(draws[i]))
      modifies this, repository
      ensures repository.Valid()
      ensures var d := BuildCreateOrderDto(request, parseGuid);
              && (d.Err? ==> && r == Err(d.error) && sent == old(sent)
                             && repository.orders == old(repository.orders)
                             && repository.outbox == old(repository.outbox))
              && (d.Ok? ==> && r.Ok?
                            && repository.orders == old(repository.orders) + [OrderStore.NewOrder(d.value, newId, r.value.orderNumber, today)]
                            && !OrderStore.NumberTaken(old(repository.orders), r.value.orderNumber)
                            && repository.outbox == old(repository.outbox) + [OrderStore.CreatedMessage(repository.orders[|old(repository.orders)|])]
                            && r.value == OrderMappers.ToCreateOrderResponse(repository.orders[|old(repository.orders)|])
                            && r.value.totalPrice > 0.0
                            && sent == old(sent) + [OrderCreatedMail(request.userEmail, r.value.orderNumber, r.value.userName, r.value.totalPrice)])
    {
      var d := BuildCreateOrderDto(request, parseGuid);
      if d.Err? {
        return Err(d.error);
      }
      var response := repository.CreateOrder(d.value, newId, today, draws);
      AcceptedOrderHasPositiveTotal(request, parseGuid, newId, response.orderNumber, today);
      sent := sent + [OrderCreatedMail(request.userEmail, response.orderNumber, response.userName, response.totalPrice)];
      r := Ok(response);
    }

    /** `GetOrderStatus`: a blank identifier is refused; otherwise the
        repository's status query on the split identifier. */
    method GetOrderStatus(request: GetOrderStatusRequest, parseGuid: GuidParser)
        returns (r: Result<seq<ResponseOrderStateDto>>)
      ensures IsBlank(request.identifier) ==> r == Err(MissingIdentifier)
      ensures !IsBlank(request.identifier) ==>
                var (orderId, orderNumber) := ParseOrderIdentifier(Some(request.identifier), parseGuid);
                r == OrderStore.GetOrderStateByIdentifier(repository.orders, orderId, orderNumber)
    {
      var rejection := IdentifierRejection(request.identifier);
      if rejection.Some? {
        return Err(rejection.value);
      }
      var (orderId, orderNumber) := ParseOrderIdentifier(Some(request.identifier), parseGuid);
      r := OrderStore.GetOrderStateByIdentifier(repository.orders, orderId, orderNumber);
    }

    /** `ChangeOrderState`: a request the checks refuse changes nothing;
        otherwise the repository's change of state and, when it succeeds,
        the mail with the requested status. */
    method ChangeOrderState(request: ChangeOrderStateRequest, parseGuid: GuidParser, today: Date)
        returns (r: Result<ResponseChangeStateDto>)
      requires repository.Valid()
      modifies this, repository
      ensures repository.Valid() && repository.outbox == old(repository.outbox)
      ensures ChangeStateRejection(request).Some? ==>
                && r == Err(ChangeStateRejection(request).value)
                && repository.orders == old(repository.orders) && sent == old(sent)
      ensures ChangeStateRejection(request).None? ==>
                var (orderId, orderNumber) := ParseOrderIdentifier(Some(request.identifier), parseGuid);
                && (r, repository.orders) == OrderStore.ChangeStateOrder(old(repository.orders), orderId, orderNumber,
                                                                         ToChangeStateDto(request), today)
                && sent == old(sent) + (if r.Ok? then [StateChangedMail(request.userEmail, r.value.orderNumber,
                                                                        request.orderStatus, request.trackingNumber)]
                                        else [])
    {
      var rejection := ChangeStateRejection(request);
      if rejection.Some? {
        return Err(rejection.value);
      }
      var (orderId, orderNumber) := ParseOrderIdentifier(Some(request.identifier), parseGuid);
      r := repository.ChangeStateOrder(orderId, orderNumber, ToChangeStateDto(request), today);
      if r.Ok? {
        sent := sent + [StateChangedMail(request.userEmail, r.value.orderNumber, request.orderStatus, request.trackingNumber)];
      }
    }

    /** `CancelOrder`: a blank identifier changes nothing; otherwise the
        repository's cancellation and, when it succeeds, the mail with the
        stated reason. */
    method CancelOrder(request: CancelOrderRequest, parseGuid: GuidParser, today: Date)
        returns (r: Result<ResponseChangeStateDto>)
      requires repository.Valid()
      modifies this, repository
      ensures repository.Valid() && repository.outbox == old(repository.outbox)
      ensures IsBlank(request.identifier) ==>
                r == Err(MissingIdentifier) && repository.orders == old(repository.orders) && sent == old(sent)
      ensures !IsBlank(request.identifier) ==>
                var (orderId, orderNumber) := ParseOrderIdentifier(Some(request.identifier), parseGuid);
                && (r, repository.orders) == OrderStore.CancelateOrder(old(repository.orders), orderId, orderNumber, today)
                && sent == old(sent) + (if r.Ok? then [OrderCancelledMail(request.userEmail, r.value.orderNumber, request.reason)]
                                        else [])
    {
      var rejection := IdentifierRejection(request.identifier);
      if rejection.Some? {
        return Err(rejection.value);
      }
      var (orderId, orderNumber) := ParseOrderIdentifier(Some(request.identifier), parseGuid);
      r := repository.CancelateOrder(orderId, orderNumber, today);
      if r.Ok? {
        sent := sent + [OrderCancelledMail(request.userEmail, r.value.orderNumber, request.reason)];
      }
    }

    /** `GetUserOrders`: the resolved query, or its error, passed to the
        repository's user history. */
    method GetUserOrders(request: GetUserOrdersRequest, parseGuid: GuidParser, parseDate: DateParser)
        returns (r: Result<seq<ResponseGetOrderUserDto>>)
      ensures var q := ResolveUserQuery(request, parseGuid, parseDate);
              && (q.Err? ==> r == Err(q.error))
              && (q.Ok? ==> r == OrderStore.GetAllOrdersUser(repository.orders, q.value.userId.value, q.value.orderId,
                                                             q.value.orderNumber, q.value.initialDate, q.value.finishDate))
    {
      var q := ResolveUserQuery(request, parseGuid, parseDate);
      if q.Err? {
        return Err(q.error);
      }
      r := OrderStore.GetAllOrdersUser(repository.orders, q.value.userId.value, q.value.orderId,
                                       q.value.orderNumber, q.value.initialDate, q.value.finishDate);
    }

    /** `GetAdminOrders`: the resolved query, or its error, passed to the
        repository's admin history. */
    method GetAdminOrders(request: GetAdminOrdersRequest, parseGuid: GuidParser, parseDate: DateParser)
        returns (r: Result<seq<ResponseGetOrderAdminDto>>)
      ensures var q := ResolveAdminQuery(request, parseGuid, parseDate);
              && (q.Err? ==> r == Err(q.error))
              && (q.Ok? ==> r == OrderStore.GetAllOrdersAdmin(repository.orders, q.value.userId, q.value.userName,
                                                              q.value.orderId, q.value.orderNumber,
                                                              q.value.initialDate, q.value.finishDate))
    {
      var q := ResolveAdminQuery(request, parseGuid, parseDate);
      if q.Err? {
        return Err(q.error);
      }
      r := OrderStore.GetAllOrdersAdmin(repository.orders, q.value.userId, q.value.userName,
                                        q.value.orderId, q.value.orderNumber, q.value.initialDate, q.value.finishDate);
    }
  }
}
