# Orders service: a verified model

This project models the core of the Censudex orders service. That service is a
gRPC service that creates customer orders, reports their status, moves them
through the states Pendiente → En Procesamiento → Enviado → Entregado, cancels
them, and lists order histories for a user or an administrator. It also
consumes stock-validation messages from the inventory service: an order
advances to "En Procesamiento" once every item has been validated, and it is
cancelled when one validation fails.

The model has one Dafny module per part of the program:

| file | module | models |
|---|---|---|
| `common.dfy` | `Common`, `Text` | null values, errors, Guid and date parsers as parameters, the .NET string functions the core uses |
| `orders.dfy` | `Orders` | `Order`, `OrderItem`, subtotals and the computed total |
| `dto.dfy` | `Dto` | the request and response records and the queue messages |
| `order_mappers.dfy` | `OrderMappers` | `OrderMappers` |
| `change_state_dto.dfy` | `ChangeStateRules` | the validation attributes of `ChangeStateDto` |
| `order_helpers.dfy` | `OrderHelpers` | `OrderHelpers`: identifier split, user and admin filters |
| `order_repository.dfy` | `OrderStore`, `Repository` | the queries of `OrderRepository` as functions over the order table, and the repository as a class whose fields are the table and the message outbox |
| `stock_validation_consumer.dfy` | `StockValidation` | `StockValidationConsumer.Consume` as one step over the validation map and the table, its runs over a sequence of messages, and the consumer as a class |
| `order_grpc_service.dfy` | `StatusSpelling`, `OrderGrpc` | the request checks of `OrderGrpcService`, the resolution of identifiers and dates, and the handlers as a class holding the repository and the log of e-mails sent |

Several things outside the model become parameters:

- The Guid and date parsers are function parameters: `None` means the parser rejects the string.
- The current day is a `today` parameter.
- The random numbers drawn for an order number are a sequence of draws.
- The id generated for a new order is a `newId` parameter.
- E-mail sending is a log of `Notification` values.
- Publishing to the message bus is the repository's `outbox`.

Where the source files disagree with one another, the model follows the
repository and mapper code:

- `Order.cs` declares no `UserEmail`, but `OrderRepository.CreateOrder` writes one, so the model's order has one.
- `ResponseCreateOrderDto` declares no `TrackingNumber`, but `OrderMappers` sets one, so the model's create response has one.

## Model

| member | source | states |
|---|---|---|
| Orders.TotalPriceSmall | src/Models/Order.cs:73 | An order without items totals 0; one with a single item totals that item's subtotal. |
| Orders.TotalPriceAppend | src/Models/Order.cs:73 | The total of two item lists put together is the sum of their totals. |
| Orders.TotalPriceAppendItem | src/Models/OrderItem.cs:52 | Adding an item adds its subtotal, quantity times unit price, to the total. |
| Orders.TotalPriceRemove | src/Models/Order.cs:73 | Removing the item at any position subtracts exactly its subtotal. |
| Orders.TotalPricePermutation | src/Models/Order.cs:73 | Item lists that are permutations of each other have the same total. |
| Orders.TotalPricePositive | src/Models/Order.cs:73 | A non-empty list whose quantities and unit prices are all positive has a positive total. |
| OrderMappers.ToCreateOrderResponse | src/Mappers/OrderMappers.cs:12-26 | Copies the order's fields and items; the reported total is the total of the reported items. |
| OrderMappers.ToChangeStateResponse | src/Mappers/OrderMappers.cs:28-40 | Copies id, number, address, status, tracking number and both dates. |
| OrderMappers.ToOrderStateResponse | src/Mappers/OrderMappers.cs:42-51 | Copies number, status and last update. |
| OrderMappers.OrderStateAgreesWithChangeState | src/Mappers/OrderMappers.cs:42-51 | The status response is the change response restricted to its three fields. |
| OrderMappers.ToItemsOrderUserList | src/Mappers/OrderMappers.cs:65-71 | One line per item, in order, with name, price, quantity and subtotal. |
| OrderMappers.ToGetOrderUserResponse | src/Mappers/OrderMappers.cs:53-73 | Copies the order's fields; its total is the order's total; each item line carries the item's subtotal. |
| OrderMappers.UserResponseTotalIsSumOfSubtotals | src/Mappers/OrderMappers.cs:64-70 | In a user response, the total equals the sum of the reported subtotals. |
| OrderMappers.ReportedSubtotalsOfItems | src/Mappers/OrderMappers.cs:65-71 | The reported subtotals of any item list add up to its total price. |
| OrderMappers.ToGetOrdersResponse | src/Mappers/OrderMappers.cs:75-90 | Copies every field of the order except the total, which keeps its default of 0 (as written). |
| OrderMappers.AdminTotalDisagreesWithUserTotal | src/Mappers/OrderMappers.cs:75-90 | For any order with positive quantities and prices, the admin total differs from the user total. |
| OrderMappers.ToGetOrdersResponseWithTotal | src/Dto/ResponseGetOrderAdminDto.cs:68 | Corrected mapper: equal to the written one except that the total is the items' total, and it agrees with the user response. |
| ChangeStateRules.StatusIsRequired | src/Dto/ChangeStateDto.cs:19 | A null, empty or blank status is invalid whatever the pattern says. |
| ChangeStateRules.StatusPatternAcceptsAnyCase | src/Dto/ChangeStateDto.cs:20 | Every ASCII-case variant of the four names, and of "en procesamiento", matches. |
| ChangeStateRules.StatusPatternAcceptsDisplayName | src/Dto/ChangeStateDto.cs:20 | "En Procesamiento" matches. |
| ChangeStateRules.StatusPatternAcceptsTab | src/Dto/ChangeStateDto.cs:20 | A tab between the two words matches, because `\s` is any white space. |
| ChangeStateRules.UnspacedStatusPattern | src/Dto/ChangeStateDto.cs:20 | For a status without white space the pattern admits exactly the four names in any ASCII case. |
| ChangeStateRules.PaddedStatusNeverMatches | src/Dto/ChangeStateDto.cs:20 | The pattern is anchored: no status with white space at either end matches. |
| ChangeStateRules.StatusPatternRejects | src/Dto/ChangeStateDto.cs:20 | "Cancelado", a double space, and leading or trailing white space do not match. |
| OrderHelpers.ParseOrderIdentifier | src/Helper/OrderHelpers.cs:25-41 | A parseable Guid becomes the id and nothing else; any other string, null included, becomes the order number; never both. |
| OrderHelpers.Where | src/Helper/OrderHelpers.cs:77 | Keeps exactly the elements that satisfy the condition, and no more than the input. |
| OrderHelpers.WhereWhere | src/Helper/OrderHelpers.cs:73-105 | Two successive `Where` filters equal one filter by the conjunction. |
| OrderHelpers.UserFilter | src/Helper/OrderHelpers.cs:132-155 | The result is never longer than the query. |
| OrderHelpers.AdminFilter | src/Helper/OrderHelpers.cs:73-106 | The result is never longer than the query. |
| OrderHelpers.UserFilterIsConjunction | src/Helper/OrderHelpers.cs:132-155 | The chain of conditional filters equals one filter by the conjunction of the supplied conditions, order preserved. |
| OrderHelpers.UserFilterMembership | src/Helper/OrderHelpers.cs:132-155 | An order is kept exactly when it is in the query and meets every supplied filter. |
| OrderHelpers.UserFilterKeepsBoundaryDays | src/Helper/OrderHelpers.cs:144-152 | The date bounds are inclusive: an order from the first or last day is kept. |
| OrderHelpers.AdminFilterIsConjunction | src/Helper/OrderHelpers.cs:73-106 | The admin chain equals one filter by the conjunction, owner and username included. |
| OrderHelpers.AdminFilterWithoutUserIsUserFilter | src/Helper/OrderHelpers.cs:73-106 | Without an owner id and with a blank username, the admin filter is the user filter. |
| OrderHelpers.FiltersWithoutArgumentsKeepAll | src/Helper/OrderHelpers.cs:132-155 | With every filter absent or blank, both filters return their input. |
| OrderHelpers.UserNameIgnoresCaseAndPadding | src/Helper/OrderHelpers.cs:80-83 | On any list, filtering by a username alone keeps exactly the orders whose username equals it after ASCII lowering and trimming of both sides. |
| OrderStore.FirstIndex | src/Repository/OrderRepository.cs:378-386 | Returns the first index that satisfies the condition, or none exactly when no element does. |
| OrderStore.GetOrderByIdOrOrderNumber | src/Repository/OrderRepository.cs:369-389 | With an id, the first order with that id; otherwise, with a non-blank number, the first order with that number; otherwise none. Absent exactly when no order matches. |
| OrderStore.CountItemsOrderById | src/Repository/OrderRepository.cs:336-349 | The number of items of an order with the id; "not found" exactly when no order has it; unique when ids are unique. |
| OrderStore.ToOrderStateResponses | src/Repository/OrderRepository.cs:135 | One status response per order, in order. |
| OrderStore.GetOrderStateByIdentifier | src/Repository/OrderRepository.cs:110-136 | Fails with "no results" exactly when no order matches; otherwise the responses are exactly those of the matching orders. |
| OrderStore.StateQueryUsesOwnerId | src/Repository/OrderRepository.cs:115-118 | The id given to the status query is compared with the owner (user) id, not with the order id. |
| OrderStore.ToUserResponses | src/Repository/OrderRepository.cs:257 | One user response per order, in order. |
| OrderStore.ToAdminResponses | src/Repository/OrderRepository.cs:304 | One admin response per order, in order. |
| OrderStore.GetAllOrdersUser | src/Repository/OrderRepository.cs:246-265 | An inverted date range is refused first; then "user without orders" exactly when none of the user's orders matches; otherwise the responses of exactly the matching orders. |
| OrderStore.UserHistoryMembership | src/Repository/OrderRepository.cs:253-255 | The owner filter followed by `UserFilter` keeps exactly the user's orders that meet every filter. |
| OrderStore.GetAllOrdersAdmin | src/Repository/OrderRepository.cs:293-312 | An inverted date range is refused first; then "no results" exactly when no order matches; otherwise the responses of exactly the matching orders. |
| OrderStore.WithNewState | src/Repository/OrderRepository.cs:164-170 | Sets the status and the update day; replaces the tracking number only when a non-blank one is given; nothing else changes. |
| OrderStore.WithNewStateIgnoresCurrentStatus | src/Repository/OrderRepository.cs:164-170 | A change of state does not depend on the current status: any transition is accepted. |
| OrderStore.CancelOutcome | src/Repository/OrderRepository.cs:199-213 | A cancelled, shipped or delivered order is refused with its own error (compared case-sensitively); any other order becomes "Cancelado" with the update day set. |
| OrderStore.ChangeStateOrder | src/Repository/OrderRepository.cs:154-177 | Not found leaves the table unchanged; otherwise only the located order is updated and its change response returned. Ids, owners, numbers and items are kept. |
| OrderStore.CancelateOrder | src/Repository/OrderRepository.cs:191-221 | Not found, or a refused cancellation, leaves the table unchanged; otherwise only the located order is cancelled. Success always reports "Cancelado". |
| OrderStore.SameShapeKeepsUniqueKeys | src/Repository/OrderRepository.cs:154-221 | Changes of state and cancellations keep ids and order numbers unique. |
| OrderStore.FirstIdSameShape | src/Repository/OrderRepository.cs:336-349 | Lookup by id gives the same index before and after a change that keeps the ids. |
| OrderStore.CountItemsSameShape | src/Repository/OrderRepository.cs:336-349 | Item counts are unchanged by changes of state and cancellations. |
| OrderStore.OrderNumberOf | src/Repository/OrderRepository.cs:409-411 | `CEN-` followed by exactly four decimal digits. |
| OrderStore.ParseOrderNumber | src/Repository/OrderRepository.cs:411 | Reads back a number below 10000 from a string of the form `CEN-dddd`. |
| OrderStore.OrderNumberRoundTrip | src/Repository/OrderRepository.cs:409-411 | Reading back the order number of a draw gives the draw. |
| OrderStore.OrderNumberInjective | src/Repository/OrderRepository.cs:406-418 | Distinct draws give distinct order numbers. |
| OrderStore.NewOrder | src/Repository/OrderRepository.cs:56-72 | The new order copies the request, with the given id, number and day; its status is "Pendiente", with no tracking number and no update; items are copied one by one. |
| OrderStore.CreatedMessage | src/Repository/OrderRepository.cs:81-90 | The message carries the order id and one (product, quantity) entry per item, in order. |
| OrderStore.CreatedMessageMatchesRequest | src/Repository/OrderRepository.cs:81-90 | The published message lists exactly the request's products and quantities. |
| OrderStore.AddKeepsUniqueKeys | src/Repository/OrderRepository.cs:76-78 | Adding an order with a fresh id and an unused number keeps the keys unique. |
| Repository.OrderRepository.constructor | src/Repository/OrderRepository.cs:37-41 | The repository starts with the given table, which has unique keys, and an empty outbox. |
| Repository.OrderRepository.CreateOrderNumber | src/Repository/OrderRepository.cs:399-421 | Returns the number of the first draw not yet taken; every earlier draw was taken. |
| Repository.OrderRepository.CreateOrder | src/Repository/OrderRepository.cs:54-95 | Appends the new order under an unused number, publishes its message, returns its create response, and keeps keys unique. |
| Repository.OrderRepository.ChangeStateOrder | src/Repository/OrderRepository.cs:154-177 | The new table and the result are those of `OrderStore.ChangeStateOrder`; keys stay unique; nothing is published. |
| Repository.OrderRepository.CancelateOrder | src/Repository/OrderRepository.cs:191-221 | The new table and the result are those of `OrderStore.CancelateOrder`; keys stay unique; nothing is published. |
| Repository.OrderRepository.CountItemsOrderById | src/Repository/OrderRepository.cs:336-349 | Returns the item count of the order with the id, or "not found" exactly when there is none. |
| StockValidation.GetOrAdd | src/Consumers/StockValidationConsumer.cs:32 | The stored entry if there is one, else a fresh entry with the current item count and no success. |
| StockValidation.Step | src/Consumers/StockValidationConsumer.cs:24-59 | An unknown order fails before anything changes; entries and orders of other ids are untouched; ids, numbers and items are kept. |
| StockValidation.FailureCancels | src/Consumers/StockValidationConsumer.cs:34-40 | A failed validation cancels the order; the entry is dropped only when the cancellation succeeds, and otherwise the error escapes with the entry left in place. |
| StockValidation.SuccessCounts | src/Consumers/StockValidationConsumer.cs:42-58 | A success increments the count; reaching the item count sets "En Procesamiento" and drops the entry; otherwise only the count changes. |
| StockValidation.AdvanceSetsProcessing | src/Consumers/StockValidationConsumer.cs:46-56 | When the last item is validated, the order is "En Procesamiento", updated that day, with its tracking number kept. |
| StockValidation.Run | src/Consumers/StockValidationConsumer.cs:24-59 | One outcome per message handled. |
| StockValidation.RunLeavesOthers | src/Consumers/StockValidationConsumer.cs:24-59 | Messages about other orders leave an order and its entry as they were. |
| StockValidation.StepCounting | src/Consumers/StockValidationConsumer.cs:30-58 | While an order's successes are below its item count, a success for it adds one and nothing else disturbs its count. |
| StockValidation.StepCountsHolds | src/Consumers/StockValidationConsumer.cs:30-58 | The step of `Consume` satisfies the counting property `StepCounting` states, for every order and count. |
| StockValidation.CountingRunEntry | src/Consumers/StockValidationConsumer.cs:42-58 | After only successes, the entry counts the successes seen, and it is gone once they reach the item count. |
| StockValidation.CountingRunAdvances | src/Consumers/StockValidationConsumer.cs:46-58 | An order advances exactly once when its successes reach its item count, and never before. |
| StockValidation.CountingRunOutcomes | src/Consumers/StockValidationConsumer.cs:42-58 | Each success for the order reports the running count, or the advance at the last one. |
| StockValidation.ExactlyOneAdvance | src/Consumers/StockValidationConsumer.cs:42-58 | With exactly as many successes as items, the order advances exactly once, at the last success, and leaves no entry. |
| StockValidation.ExampleTwoSuccessesThenFailure | src/Consumers/StockValidationConsumer.cs:34-58 | Three items, two successes and a failure: progress 1, progress 2, then cancelled with no entry left. |
| StockValidation.FreshCounterAfterRemoval | src/Consumers/StockValidationConsumer.cs:38-56 | Once the entry is dropped, a later success starts counting from one again. |
| StockValidation.LateSuccessLeavesEntry | src/Consumers/StockValidationConsumer.cs:32-44 | A success arriving after the cancellation of a two-item order starts a new entry, which is not removed by the remaining success of that order. |
| StockValidation.RedeliveredSuccessAdvancesTwice | src/Consumers/StockValidationConsumer.cs:42-56 | Finding (as written): a success delivered twice for a one-item order advances it twice. |
| StockValidation.SuccessAfterFailureRevivesOrder | src/Consumers/StockValidationConsumer.cs:34-56 | Finding (as written): a success after the failure that cancelled a one-item order advances it, so the cancelled order is back "En Procesamiento". |
| StockValidation.DecidedOnceStep | src/Consumers/StockValidationConsumer.cs:24-59 | Corrected step: an event for an order already settled is ignored and changes nothing; any other event is handled as `Step` does, and a cancellation or advance records the order as settled. |
| StockValidation.DecidedOnceRun | src/Consumers/StockValidationConsumer.cs:24-59 | The corrected consumer gives one outcome per message. |
| StockValidation.DecidedOnceRunFirst | src/Consumers/StockValidationConsumer.cs:24-59 | The corrected run handles the first message and then the rest from the state it leaves. |
| StockValidation.DecidedAtMostOnce | src/Consumers/StockValidationConsumer.cs:34-58 | For every sequence of messages, the corrected consumer cancels or advances each order at most once, and never one that is already settled. |
| StockValidation.CorrectedSuccessAfterFailureIsIgnored | src/Consumers/StockValidationConsumer.cs:34-56 | With the correction, a success after the cancelling failure is ignored and the order stays cancelled. |
| StockValidation.StockValidationConsumer.constructor | src/Consumers/StockValidationConsumer.cs:17-22 | The consumer starts with an empty validation map. |
| StockValidation.StockValidationConsumer.Consume | src/Consumers/StockValidationConsumer.cs:24-59 | The outcome, the new map and the new table are those of `Step`; keys stay unique; nothing is published. |
| StatusSpelling.SpacedListedStateNeverMatches | src/Service/OrderGrpcService.cs:191-192 | The list entry "en procesamiento" is dead: no status with its spaces removed equals it. |
| StatusSpelling.ListedStatesAreFour | src/Service/OrderGrpcService.cs:191-192 | The whitelist admits exactly the four space-free lower-case names; "cancelado" is not one of them. |
| StatusSpelling.CancelledIsNotListed | src/Service/OrderGrpcService.cs:191-195 | Any case variant of "cancelado" is refused. |
| StatusSpelling.WhitelistAgreesWithPattern | src/Service/OrderGrpcService.cs:191-192 | For a status without white space, the whitelist and the `ChangeStateDto` pattern admit the same strings. |
| StatusSpelling.TabPassesPatternOnly | src/Service/OrderGrpcService.cs:192 | "en\tprocesamiento" passes the pattern but not the whitelist. |
| StatusSpelling.PaddedPassesWhitelistOnly | src/Service/OrderGrpcService.cs:192 | " Enviado" passes the whitelist but not the anchored pattern. |
| StatusSpelling.ShippedSpellings | src/Service/OrderGrpcService.cs:192-205 | "enviado" is listed and names the shipped state but is not a declared status; " Enviado" is listed, normalises to "enviado", but does not name the shipped state. |
| StatusSpelling.CanonicalStatus | src/Service/OrderGrpcService.cs:191-192 | Maps an admitted spelling to its declared name, never "Cancelado"; the result is "Enviado" exactly when the normalised form is "enviado". |
| OrderGrpc.FirstFailureNone | src/Service/OrderGrpcService.cs:62-100 | A chain of checks lets a request through exactly when it has none of the defects. |
| OrderGrpc.FirstFailureSome | src/Service/OrderGrpcService.cs:62-100 | The reported check fails, and every check before it passes. |
| OrderGrpc.CreateOrderRejection | src/Service/OrderGrpcService.cs:62-100 | No error exactly when user id, name and address are non-blank, items exist, and every item has an id, a name, and a positive quantity and price. |
| OrderGrpc.CreateOrderRejectionIsFirstFailure | src/Service/OrderGrpcService.cs:62-100 | The reported error is the first of the eight checks, in source order, that fails. |
| OrderGrpc.BuildCreateOrderDto | src/Service/OrderGrpcService.cs:102-114 | The checks come first, then a malformed user id or product id throws; a request that passes the checks and has parseable ids is accepted, with the ids parsed, names, address and items copied, and the e-mail left empty. |
| OrderGrpc.AcceptedOrderHasPositiveTotal | src/Service/OrderGrpcService.cs:92-116 | An accepted request yields an order with a positive total. |
| OrderGrpc.ChangeStateRejection | src/Service/OrderGrpcService.cs:181-205 | No error exactly when identifier and status are non-blank, the status is listed, and a tracking number is given exactly when the lower-cased status is "enviado". |
| OrderGrpc.ChangeStateRejectionIsFirstFailure | src/Service/OrderGrpcService.cs:181-205 | The reported error is the first of the five checks, in source order, that fails. |
| OrderGrpc.ToChangeStateDto | src/Service/OrderGrpcService.cs:209-213 | The status is passed on verbatim, not normalised, with the tracking number. |
| OrderGrpc.ChangeToCancelledIsRejected | src/Service/OrderGrpcService.cs:191-195 | With an identifier, a request to change to any case of "cancelado" is refused as an invalid status. |
| OrderGrpc.LowerCaseShippedOrderCanBeCancelled | src/Service/OrderGrpcService.cs:197-213 | Finding (as written): "enviado" with a tracking number is accepted and stored verbatim, and the resulting shipped order can then be cancelled. |
| OrderGrpc.PaddedShippedStatusSkipsTrackingCheck | src/Service/OrderGrpcService.cs:192-205 | Finding (as written): " Enviado" without a tracking number is accepted, so a shipped order can end up with no tracking number. |
| OrderGrpc.CorrectedChangeStateRejection | src/Service/OrderGrpcService.cs:191-205 | Corrected checks: the tracking test uses the normalised status; the first three errors are unchanged. |
| OrderGrpc.CorrectedChangeStateDto | src/Service/OrderGrpcService.cs:209-213 | Corrected request: stores the declared name of the admitted spelling. |
| OrderGrpc.CorrectedChangeKeepsShippedOrdersShipped | src/Service/OrderGrpcService.cs:191-213 | After a corrected change, the status is declared and not "Cancelado"; a shipped order has a non-blank tracking number and cannot be cancelled. |
| OrderGrpc.IdentifierRejection | src/Service/OrderGrpcService.cs:148-150 | A blank identifier is refused with `MissingIdentifier`, and only then. |
| OrderGrpc.ResolveDate | src/Service/OrderGrpcService.cs:290-300 | A blank date is no filter; any other string is parsed, and a malformed one throws. |
| OrderGrpc.ResolveUserQuery | src/Service/OrderGrpcService.cs:282-302 | A blank user id is refused first, then a malformed one; otherwise the identifier split and both dates resolved, initial first. |
| OrderGrpc.SplitUserIdentifier | src/Service/OrderGrpcService.cs:333-340 | A parseable Guid is the owner id; anything else is the username. |
| OrderGrpc.SplitUserIdentifierIsParseOrderIdentifier | src/Service/OrderGrpcService.cs:333-340 | The user split behaves exactly as `OrderHelpers.ParseOrderIdentifier` on a non-null string. |
| OrderGrpc.ResolveAdminQuery | src/Service/OrderGrpcService.cs:330-354 | Only a malformed date is refused; otherwise user split, identifier split and both dates. |
| OrderGrpc.EmptyAdminRequestListsAll | src/Service/OrderGrpcService.cs:330-356 | An admin request with every field empty lists every order. |
| OrderGrpc.OrderGrpcService.constructor | src/Service/OrderGrpcService.cs:38-43 | The service holds the repository and has sent no mail. |
| OrderGrpc.OrderGrpcService.CreateOrder | src/Service/OrderGrpcService.cs:58-122 | A refused request changes nothing; otherwise the order is added under a number no earlier order has, its creation message is published, the response is that order's creation view with a positive total, and the creation mail is sent. |
| OrderGrpc.OrderGrpcService.GetOrderStatus | src/Service/OrderGrpcService.cs:144-157 | A blank identifier is refused; otherwise the status query on the split identifier. |
| OrderGrpc.OrderGrpcService.ChangeOrderState | src/Service/OrderGrpcService.cs:176-220 | A refused request changes nothing; otherwise the repository's change, and the mail only when it succeeds. |
| OrderGrpc.OrderGrpcService.CancelOrder | src/Service/OrderGrpcService.cs:241-258 | A blank identifier changes nothing; otherwise the repository's cancellation, and the mail only when it succeeds. |
| OrderGrpc.OrderGrpcService.GetUserOrders | src/Service/OrderGrpcService.cs:278-304 | The resolved user query's error, or the repository's user history for it. |
| OrderGrpc.OrderGrpcService.GetAdminOrders | src/Service/OrderGrpcService.cs:326-358 | The resolved admin query's error, or the repository's admin history for it. |

## Left out

- Concurrency. The async calls, the thread safety of the `ConcurrentDictionary` and `Interlocked.Increment` are not modelled: messages are handled one at a time, in a given order.
- The database. Entity Framework and MySQL become a `seq<Order>` field. Lookups follow `FirstOrDefault`. The column collation is not modelled, so string comparisons are ordinal.
- The message bus. MassTransit's publishing is an append to `outbox`, and its delivery of stock-validation messages is the `Event` sequence given to `Run`.
- E-mail. `SendGridService` becomes the `sent` log of `Notification` values; its exceptions and bodies are not modelled.
- The REST controller (`OrderController`), `ProtoMappers`, `Program.cs`, the `IOrderRepository` interface and `GetUserEmail` are not part of this model. Only the gRPC path is modelled.
- The gRPC error wrapping. Each failure is an `Error` value, and the `RpcException` status codes and message wrapping in the catch blocks are not modelled.
- Orders.TotalPriceAppend: prices are exact `real` numbers, not `double`. `Quantity * UnitPrice` is computed in `double`, so the rounding of each product and of the sum is not modelled.
- Text.Lower: `ToLower` is the ASCII mapping only; culture-specific and non-ASCII case mappings are not modelled.
- The parsers. `Guid.Parse`, `Guid.TryParse` and `DateOnly.Parse` are parameters, and their accepted formats are not modelled.
- Keys of items. An item's own id and its foreign key are not modelled.
- Repository.OrderRepository.CreateOrderNumber: the source loops until a free number turns up and may never stop. The model requires that a free draw exists in the given draws.
- Repository.OrderRepository.ChangeStateOrder: the tracked entity is updated by its index in the table rather than through an alias.
- The `[RegularExpression]` on `Order.OrderStatus` is never enforced on save, so the model's status is any string (`IsDeclaredStatus` only names the five values).
- `ChangeStateDto`'s attributes run only under MVC model binding, so on the gRPC path the whitelist alone applies. `ChangeStateRules` states the attributes for comparison.
- The handlers of `OrderGrpc.OrderGrpcService` use the checks as written. The corrected checks of the findings stand beside them.
- StockValidation.StockValidationConsumer.Consume keeps the step as written. The corrected `DecidedOnceStep`, which settles each order at most once, stands beside it.
- Logging to the console is not modelled.

## Findings

| source | as written | input that shows it | evidently intended | confidence | as-written member | corrected member |
|---|---|---|---|---|---|---|
| src/Mappers/OrderMappers.cs:75-90 | The admin response never sets `TotalPrice`, so it keeps 0. | Any order with one item of quantity 1 and price 1.0: the admin total is 0, the user total is 1.0. | The admin total is the order's total, as in the user response. | not executed | OrderMappers.AdminTotalDisagreesWithUserTotal | OrderMappers.ToGetOrdersResponseWithTotal |
| src/Service/OrderGrpcService.cs:209-213 | The status is stored as typed. The cancellation guard compares it case-sensitively with "Enviado". | Change to "enviado" with tracking "T-1", then cancel: the shipped order is cancelled. | Store the declared name, so a shipped order cannot be cancelled. | not executed | OrderGrpc.LowerCaseShippedOrderCanBeCancelled | OrderGrpc.CorrectedChangeKeepsShippedOrdersShipped |
| src/Service/OrderGrpcService.cs:197-205 | The tracking checks compare only the lower-cased status with "enviado", while the whitelist also strips spaces. | " Enviado" with an empty tracking number is accepted. | Apply the tracking checks to the normalised status. | not executed | OrderGrpc.PaddedShippedStatusSkipsTrackingCheck | OrderGrpc.CorrectedChangeStateRejection |
| src/Consumers/StockValidationConsumer.cs:42-56 | Nothing records that an order was already advanced, so a redelivered success counts again from a fresh entry. | A one-item "Pendiente" order with two successful validations: the outcomes are advanced, advanced. | Each order is settled once; later messages for it are ignored. | not executed | StockValidation.RedeliveredSuccessAdvancesTwice | StockValidation.DecidedAtMostOnce |
| src/Consumers/StockValidationConsumer.cs:34-56 | After a failure cancels the order and drops its entry, a later success counts from a fresh entry and changes the state. | A one-item "Pendiente" order with a failed and then a successful validation: cancelled, then advanced, and the order ends "En Procesamiento". | A cancelled order stays cancelled. | not executed | StockValidation.SuccessAfterFailureRevivesOrder | StockValidation.CorrectedSuccessAfterFailureIsIgnored |
