/** `StockValidationConsumer`: folds the inventory service's per-product
    validation events into a progress map keyed by order id, cancelling the
    order on the first failure and moving it to "En Procesamiento" once as
    many successes as it has items have been counted. */
module StockValidation {
  import opened Common
  import opened Orders
  import opened Dto
  import opened OrderStore
  import Repository

  /** `ValidationState`: the item count read when the entry was made and the
      successes counted since. */
  datatype ValidationState = ValidationState(total: int, validatedCount: int)

  type Validations = map<Guid, ValidationState>

  /** One `StockValidateMessage`, reduced to what `Consume` reads, and the day
      on which it is handled. */
  datatype Event = Event(orderId: Guid, ok: bool, today: Date)

  /** What handling one event did. */
  datatype Outcome =
    | Failed(error: Error)        // an exception escaped `Consume`
    | Cancelled                   // the order was cancelled and its entry dropped
    | Progress(validated: int)    // counted; more successes are needed
    | Advanced                    // counted the last item; "En Procesamiento"
    | Ignored                     // the order was already decided (corrected consumer only)

  /** `GetOrAdd`: the stored entry, or a fresh one with no success counted. */
  function GetOrAdd(v: Validations, id: Guid, total: int): (r: ValidationState)
    ensures id in v ==> r == v[id]
    ensures id !in v ==> r == ValidationState(total, 0)
  {
    if id in v then v[id] else ValidationState(total, 0)
  }

  /** The status request `Consume` sends on the last success. */
  const ToProcessing := ChangeStateDto(EnProcesamiento, None)

  /** `Consume` on values: the entry map and the table before and after one
      event. The item count is read first; a failure cancels and, if the
      cancellation succeeds, drops the entry; a success raises the counter by
      one and, when it reaches the freshly read item count (the stored
      `Total` is never read), changes the status and drops the entry. */
  function Step(v: Validations, orders: seq<Order>, e: Event): (r: (Outcome, Validations, seq<Order>))
    ensures CountItemsOrderById(orders, e.orderId).Err? ==> r == (Failed(ItemsOrderNotFound), v, orders)
    ensures forall id :: id != e.orderId ==>
              && (id in r.1 <==> id in v)
              && (id in v ==> r.1[id] == v[id])
    ensures SameShape(orders, r.2)
    ensures forall p :: 0 <= p < |orders| && orders[p].id != e.orderId ==> r.2[p] == orders[p]
  {
    var count := CountItemsOrderById(orders, e.orderId);
    if count.Err? then (Failed(count.error), v, orders)
    else
      var state := GetOrAdd(v, e.orderId, count.value);
      var v1 := v[e.orderId := state];
      if !e.ok then
        var cancel := CancelateOrder(orders, Some(e.orderId), None, e.today);
        if cancel.0.Err? then (Failed(cancel.0.error), v1, orders)
        else (Cancelled, v1 - {e.orderId}, cancel.1)
      else
        var validated := state.validatedCount + 1;
        var v2 := v1[e.orderId := state.(validatedCount := validated)];
        if validated == count.value then
          var change := ChangeStateOrder(orders, Some(e.orderId), None, ToProcessing, e.today);
          assert change.0.Ok?;
          (Advanced, v2 - {e.orderId}, change.1)
        else (Progress(validated), v2, orders)
  }

  /** A failure cancels the order. When the cancellation succeeds the entry
      is dropped and the counter never raised; when it fails (the order is
      already cancelled, shipped or delivered) the entry, new or old, stays
      as it was and the table is unchanged. */
  lemma FailureCancels(v: Validations, orders: seq<Order>, e: Event, n: nat)
    requires !e.ok && CountItemsOrderById(orders, e.orderId) == Ok(n)
    ensures var s := Step(v, orders, e);
            var cancel := CancelateOrder(orders, Some(e.orderId), None, e.today);
            && (s.0 == Cancelled <==> cancel.0.Ok?)
            && (cancel.0.Ok? ==> e.orderId !in s.1 && s.2 == cancel.1)
            && (cancel.0.Err? ==> && s.0 == Failed(cancel.0.error) && s.2 == orders
                                  && s.1 == v[e.orderId := GetOrAdd(v, e.orderId, n)])
  {
  }

  /** A success raises the order's counter by exactly one. When it reaches the
      item count the order is changed to "En Procesamiento" with no tracking
      number and the entry dropped; otherwise nothing is written and the
      entry stays with the raised count. */
  lemma SuccessCounts(v: Validations, orders: seq<Order>, e: Event, n: nat)
    requires e.ok && CountItemsOrderById(orders, e.orderId) == Ok(n)
    ensures var s := Step(v, orders, e);
            var prior := GetOrAdd(v, e.orderId, n);
            var validated := prior.validatedCount + 1;
            && (validated == n ==>
                  && s.0 == Advanced && e.orderId !in s.1
                  && s.2 == ChangeStateOrder(orders, Some(e.orderId), None, ToProcessing, e.today).1)
            && (validated != n ==>
                  && s.0 == Progress(validated) && s.2 == orders
                  && s.1 == v[e.orderId := prior.(validatedCount := validated)])
  {
  }

  /** On the last success the order with that id takes "En Procesamiento",
      today's date and keeps its tracking number. */
  lemma AdvanceSetsProcessing(v: Validations, orders: seq<Order>, e: Event, p: nat)
    requires UniqueKeys(orders)
    requires Step(v, orders, e).0 == Advanced
    requires p < |orders| && orders[p].id == e.orderId
    ensures var after := Step(v, orders, e).2[p];
            && after.orderStatus == EnProcesamiento && after.updateAt == Some(e.today)
            && after.trackingNumber == orders[p].trackingNumber
  {
    var k := GetOrderByIdOrOrderNumber(orders, Some(e.orderId), None);
    assert k.Some?;
    assert k.value == p;
  }

  /** A handler of one event. */
  type StepFn = (Validations, seq<Order>, Event) -> (Outcome, Validations, seq<Order>)

  /** Events handled one after another by `step`, with their outcomes;
      `Run(Step, ...)` is the consumer's behaviour. */
  function Run(step: StepFn, v: Validations, orders: seq<Order>, events: seq<Event>): (r: (seq<Outcome>, Validations, seq<Order>))
    ensures |r.0| == |events|
    decreases |events|
  {
    if events == [] then ([], v, orders)
    else
      var s := step(v, orders, events[0]);
      var rest := Run(step, s.1, s.2, events[1..]);
      ([s.0] + rest.0, rest.1, rest.2)
  }

  /** One step of `Run`, unfolded for a known first event. */
  lemma RunFirst(step: StepFn, v: Validations, orders: seq<Order>, e: Event, rest: seq<Event>)
    ensures var s := step(v, orders, e);
            var r := Run(step, s.1, s.2, rest);
            Run(step, v, orders, [e] + rest) == ([s.0] + r.0, r.1, r.2)
  {
    assert ([e] + rest)[0] == e;
    assert ([e] + rest)[1..] == rest;
  }

  /** How many of the events are for `id`. */
  function Occurrences(events: seq<Event>, id: Guid): nat {
    if events == [] then 0
    else (if events[0].orderId == id then 1 else 0) + Occurrences(events[1..], id)
  }

  /** How many events for `id` advanced their order. */
  function Advances(events: seq<Event>, outs: seq<Outcome>, id: Guid): nat
    requires |outs| == |events|
  {
    if events == [] then 0
    else (if events[0].orderId == id && outs[0] == Advanced then 1 else 0)
         + Advances(events[1..], outs[1..], id)
  }

  /** The entry of `id` records `k` successes; none is stored for 0. */
  predicate Counted(v: Validations, id: Guid, k: nat) {
    if k == 0 then id !in v else id in v && v[id].validatedCount == k
  }

  /** Events for other orders leave the order at `p` and the entry of its id
      as they were. */
  lemma {:induction false} RunLeavesOthers(v: Validations, orders: seq<Order>, events: seq<Event>, p: nat)
    requires p < |orders|
    requires forall i :: 0 <= i < |events| ==> events[i].orderId != orders[p].id
    ensures var r := Run(Step, v, orders, events);
            && p < |r.2| && r.2[p] == orders[p]
            && (orders[p].id in r.1 <==> orders[p].id in v)
            && (orders[p].id in v ==> r.1[orders[p].id] == v[orders[p].id])
    decreases |events|
  {
    if events != [] {
      var s := Step(v, orders, events[0]);
      RunLeavesOthers(s.1, s.2, events[1..], p);
    }
  }

  /** The events for `id` in a prefix ending at one of them: at least that
      one, and no more than in the whole sequence. */
  lemma {:induction false} OccurrencesPrefix(events: seq<Event>, i: nat, id: Guid)
    requires i < |events|
    ensures Occurrences(events[..i + 1], id) <= Occurrences(events, id)
    ensures events[i].orderId == id ==> Occurrences(events[..i + 1], id) >= 1
    ensures Occurrences(events[..i + 1], id)
            == (if events[0].orderId == id then 1 else 0) + (if i == 0 then 0 else Occurrences(events[1..][..i], id))
    decreases i
  {
    assert events[..i + 1][1..] == events[1..][..i];
    if i > 0 {
      OccurrencesPrefix(events[1..], i - 1, id);
      assert events[1..][i - 1] == events[i];
    }
  }

  /** One event as seen by the counter of `id`: an event for `id`, a success,
      raises the count or completes it; any other event leaves it. */
  lemma StepCounting(v: Validations, orders: seq<Order>, e: Event, id: Guid, n: nat, k: nat)
    requires CountItemsOrderById(orders, id) == Ok(n)
    requires Counted(v, id, k) && k < n
    requires e.orderId == id ==> e.ok
    ensures var s := Step(v, orders, e);
            && CountItemsOrderById(s.2, id) == Ok(n)
            && (e.orderId == id ==>
                  && s.0 == (if k + 1 == n then Advanced else Progress(k + 1))
                  && Counted(s.1, id, if k + 1 == n then 0 else k + 1))
            && (e.orderId != id ==> Counted(s.1, id, k))
  {
    var s := Step(v, orders, e);
    CountItemsSameShape(orders, s.2, id);
    if e.orderId == id {
      SuccessCounts(v, orders, e, n);
    }
  }

  /** What one event does to the counter of an order of `n` items whose
      entry records `k` successes. */
  predicate CountedAfter(s: (Outcome, Validations, seq<Order>), e: Event, id: Guid, n: nat, k: nat) {
    && CountItemsOrderById(s.2, id) == Ok(n)
    && (e.orderId == id ==>
          && s.0 == (if k + 1 == n then Advanced else Progress(k + 1))
          && Counted(s.1, id, if k + 1 == n then 0 else k + 1))
    && (e.orderId != id ==> Counted(s.1, id, k))
  }

  /** `step` counts the successes of `id` as `StepCounting` says `Step` does. */
  ghost predicate StepCounts(step: StepFn, id: Guid, n: nat) {
    forall v: Validations, orders: seq<Order>, e: Event, k: nat ::
      CountItemsOrderById(orders, id) == Ok(n) && Counted(v, id, k) && k < n && (e.orderId == id ==> e.ok)
      ==> CountedAfter(step(v, orders, e), e, id, n, k)
  }

  lemma StepCountsHolds(id: Guid, n: nat)
    ensures StepCounts(Step, id, n)
  {
    forall v: Validations, orders: seq<Order>, e: Event, k: nat
      | CountItemsOrderById(orders, id) == Ok(n) && Counted(v, id, k) && k < n && (e.orderId == id ==> e.ok)
      ensures CountedAfter(Step(v, orders, e), e, id, n, k)
    {
      StepCounting(v, orders, e, id, n, k);
    }
  }

  /** The counting argument, in three parts. With `k` successes already
      counted for an order of `n` items and at most `n - k` more events for
      it, all successes: the entry is gone at the end exactly when the count
      was completed, and otherwise records every success; ... */
  lemma {:induction false} CountingRunEntry(step: StepFn, v: Validations, orders: seq<Order>, events: seq<Event>,
                                            id: Guid, n: nat, k: nat)
    requires StepCounts(step, id, n)
    requires CountItemsOrderById(orders, id) == Ok(n)
    requires Counted(v, id, k) && k < n
    requires forall i :: 0 <= i < |events| && events[i].orderId == id ==> events[i].ok
    requires k + Occurrences(events, id) <= n
    ensures Counted(Run(step, v, orders, events).1, id,
                    if k + Occurrences(events, id) == n then 0 else k + Occurrences(events, id))
    decreases |events|
  {
    if events != [] {
      var e := events[0];
      var s := step(v, orders, e);
      assert CountedAfter(s, e, id, n, k);
      var k' := if e.orderId == id then (if k + 1 == n then 0 else k + 1) else k;
      assert forall i :: 0 <= i < |events[1..]| && events[1..][i].orderId == id ==> events[1..][i].ok;
      CountingRunEntry(step, s.1, s.2, events[1..], id, n, k');
    }
  }

  /** ... the order is advanced once if the events complete the count and
      never otherwise; ... */
  lemma {:induction false} CountingRunAdvances(step: StepFn, v: Validations, orders: seq<Order>, events: seq<Event>,
                                               id: Guid, n: nat, k: nat)
    requires StepCounts(step, id, n)
    requires CountItemsOrderById(orders, id) == Ok(n)
    requires Counted(v, id, k) && k < n
    requires forall i :: 0 <= i < |events| && events[i].orderId == id ==> events[i].ok
    requires k + Occurrences(events, id) <= n
    ensures Advances(events, Run(step, v, orders, events).0, id) == (if k + Occurrences(events, id) == n then 1 else 0)
    decreases |events|
  {
    if events != [] {
      var e := events[0];
      var s := step(v, orders, e);
      assert CountedAfter(s, e, id, n, k);
      var k' := if e.orderId == id then (if k + 1 == n then 0 else k + 1) else k;
      assert forall i :: 0 <= i < |events[1..]| && events[1..][i].orderId == id ==> events[1..][i].ok;
      var outs := Run(step, v, orders, events).0;
      assert outs[1..] == Run(step, s.1, s.2, events[1..]).0;
      CountingRunAdvances(step, s.1, s.2, events[1..], id, n, k');
    }
  }

  /** Each event for `id` reports the count it brings the total to, or
      advances the order when that count is `n`. */
  predicate OutcomesFrom(events: seq<Event>, outs: seq<Outcome>, id: Guid, n: nat, k: nat)
    requires |outs| == |events|
  {
    forall i :: 0 <= i < |events| && events[i].orderId == id ==>
      outs[i] == (if k + Occurrences(events[..i + 1], id) == n then Advanced
                  else Progress(k + Occurrences(events[..i + 1], id)))
  }

  /** The induction step of `CountingRunOutcomes`: the first outcome
      followed by outcomes that are right for the remaining events. */
  lemma OutcomesShift(events: seq<Event>, s0: Outcome, rest: seq<Outcome>, id: Guid, n: nat, k: nat, k': nat)
    requires events != [] && |rest| == |events| - 1
    requires k < n && k + Occurrences(events, id) <= n
    requires events[0].orderId == id ==> s0 == (if k + 1 == n then Advanced else Progress(k + 1))
    requires k' == (if events[0].orderId == id then (if k + 1 == n then 0 else k + 1) else k)
    requires OutcomesFrom(events[1..], rest, id, n, k')
    ensures OutcomesFrom(events, [s0] + rest, id, n, k)
  {
    var outs := [s0] + rest;
    forall i | 0 <= i < |events| && events[i].orderId == id
      ensures outs[i] == (if k + Occurrences(events[..i + 1], id) == n then Advanced
                          else Progress(k + Occurrences(events[..i + 1], id)))
    {
      OccurrencesPrefix(events, i, id);
      if i > 0 {
        var j := i - 1;
        assert events[1..][j] == events[i];
        assert outs[i] == rest[j];
        OccurrencesPrefix(events[1..], j, id);
      }
    }
  }

  /** ... and the event that brings the count to `n` is the one that
      advances it, every earlier one reporting its progress. */
  lemma {:induction false} CountingRunOutcomes(step: StepFn, v: Validations, orders: seq<Order>, events: seq<Event>,
                                               id: Guid, n: nat, k: nat)
    requires StepCounts(step, id, n)
    requires CountItemsOrderById(orders, id) == Ok(n)
    requires Counted(v, id, k) && k < n
    requires forall i :: 0 <= i < |events| && events[i].orderId == id ==> events[i].ok
    requires k + Occurrences(events, id) <= n
    ensures OutcomesFrom(events, Run(step, v, orders, events).0, id, n, k)
    decreases |events|
  {
    if events != [] {
      var e := events[0];
      var s := step(v, orders, e);
      assert CountedAfter(s, e, id, n, k);
      var k' := if e.orderId == id then (if k + 1 == n then 0 else k + 1) else k;
      assert forall i :: 0 <= i < |events[1..]| && events[1..][i].orderId == id ==> events[1..][i].ok;
      var rest := Run(step, s.1, s.2, events[1..]);
      CountingRunOutcomes(step, s.1, s.2, events[1..], id, n, k');
      OutcomesShift(events, s.0, rest.0, id, n, k, k');
    }
  }

  /** N successes for an order with N items and no failure, interleaved with
      any events for other orders, advance it exactly once, on its N-th
      event, and its entry is gone afterwards. */
  lemma ExactlyOneAdvance(v: Validations, orders: seq<Order>, events: seq<Event>, id: Guid, n: nat)
    requires CountItemsOrderById(orders, id) == Ok(n) && n >= 1
    requires id !in v
    requires forall i :: 0 <= i < |events| && events[i].orderId == id ==> events[i].ok
    requires Occurrences(events, id) == n
    ensures var outs := Run(Step, v, orders, events).0;
            && Advances(events, outs, id) == 1
            && forall i :: 0 <= i < |events| && events[i].orderId == id ==>
                 (outs[i] == Advanced <==> Occurrences(events[..i + 1], id) == n)
    ensures id !in Run(Step, v, orders, events).1
  {
    StepCountsHolds(id, n);
    CountingRunEntry(Step, v, orders, events, id, n, 0);
    CountingRunAdvances(Step, v, orders, events, id, n, 0);
    CountingRunOutcomes(Step, v, orders, events, id, n, 0);
  }

  /** The worked case of three items and the events (ok, ok, fail): no
      action, no action, then cancellation, which drops the entry. */
  lemma ExampleTwoSuccessesThenFailure(o: Order, t: Date)
    requires |o.items| == 3 && o.orderStatus == Pendiente
    ensures var r := Run(Step, map[], [o], [Event(o.id, true, t), Event(o.id, true, t), Event(o.id, false, t)]);
            && r.0 == [Progress(1), Progress(2), Cancelled]
            && r.1 == map[]
            && r.2 == [o.(orderStatus := Cancelado, updateAt := Some(t))]
  {
    var e1 := Event(o.id, true, t);
    var e3 := Event(o.id, false, t);
    assert CountItemsOrderById([o], o.id) == Ok(3);
    SuccessCounts(map[], [o], e1, 3);
    var s1 := Step(map[], [o], e1);
    assert s1.1 == map[o.id := ValidationState(3, 1)];
    SuccessCounts(s1.1, s1.2, e1, 3);
    var s2 := Step(s1.1, s1.2, e1);
    assert s2.1 == map[o.id := ValidationState(3, 2)];
    FailureCancels(s2.1, s2.2, e3, 3);
    assert GetOrderByIdOrOrderNumber([o], Some(o.id), None) == Some(0);
    var s3 := Step(s2.1, s2.2, e3);
    assert s3.1 == map[];
    RunFirst(Step, s2.1, s2.2, e3, []);
    RunFirst(Step, s1.1, s1.2, e1, [e3]);
    RunFirst(Step, map[], [o], e1, [e1, e3]);
  }

  /** After an entry is dropped, the next success for that order starts
      counting from zero again. */
  lemma FreshCounterAfterRemoval(v: Validations, orders: seq<Order>, e: Event, t: Date)
    requires Step(v, orders, e).0 == Cancelled || Step(v, orders, e).0 == Advanced
    ensures var s := Step(v, orders, e);
            var count := CountItemsOrderById(orders, e.orderId);
            && e.orderId !in s.1
            && count.Ok?
            && Step(s.1, s.2, Event(e.orderId, true, t)).0 == (if count.value == 1 then Advanced else Progress(1))
  {
    var count := CountItemsOrderById(orders, e.orderId);
    assert count.Ok?;
    var s := Step(v, orders, e);
    if e.ok {
      SuccessCounts(v, orders, e, count.value);
    } else {
      FailureCancels(v, orders, e, count.value);
    }
    CountItemsSameShape(orders, s.2, e.orderId);
    SuccessCounts(s.1, s.2, Event(e.orderId, true, t), count.value);
  }

  /** A success that arrives for an order already cancelled by an earlier
      failure makes a new entry, which the remaining success of a two-item
      order does not complete and so does not drop. */
  lemma LateSuccessLeavesEntry(o: Order, t: Date)
    requires |o.items| == 2 && o.orderStatus == Pendiente
    ensures var r := Run(Step, map[], [o], [Event(o.id, false, t), Event(o.id, true, t)]);
            && r.0 == [Cancelled, Progress(1)]
            && r.1 == map[o.id := ValidationState(2, 1)]
  {
    var e1 := Event(o.id, false, t);
    var e2 := Event(o.id, true, t);
    assert CountItemsOrderById([o], o.id) == Ok(2);
    assert GetOrderByIdOrOrderNumber([o], Some(o.id), None) == Some(0);
    FailureCancels(map[], [o], e1, 2);
    var s1 := Step(map[], [o], e1);
    assert s1.1 == map[];
    CountItemsSameShape([o], s1.2, o.id);
    SuccessCounts(s1.1, s1.2, e2, 2);
    var s2 := Step(s1.1, s1.2, e2);
    assert s2.1 == map[o.id := ValidationState(2, 1)];
    RunFirst(Step, s1.1, s1.2, e2, []);
    RunFirst(Step, map[], [o], e1, [e2]);
  }

  // ---------------------------------------------------------------------
  // Redelivery

  /** A success delivered twice for a one-item order advances it twice. */
  lemma RedeliveredSuccessAdvancesTwice(o: Order, t: Date)
    requires |o.items| == 1 && o.orderStatus == Pendiente
    ensures Run(Step, map[], [o], [Event(o.id, true, t), Event(o.id, true, t)]).0 == [Advanced, Advanced]
  {
    var e := Event(o.id, true, t);
    assert CountItemsOrderById([o], o.id) == Ok(1);
    SuccessCounts(map[], [o], e, 1);
    var s1 := Step(map[], [o], e);
    assert s1.1 == map[];
    CountItemsSameShape([o], s1.2, o.id);
    SuccessCounts(s1.1, s1.2, e, 1);
    RunFirst(Step, s1.1, s1.2, e, []);
    RunFirst(Step, map[], [o], e, [e]);
  }

  /** A success after the failure that cancelled a one-item order advances
      it: the cancelled order is back "En Procesamiento". */
  lemma SuccessAfterFailureRevivesOrder(o: Order, t: Date)
    requires |o.items| == 1 && o.orderStatus == Pendiente
    ensures var r := Run(Step, map[], [o], [Event(o.id, false, t), Event(o.id, true, t)]);
            && r.0 == [Cancelled, Advanced]
            && |r.2| == 1 && r.2[0].orderStatus == EnProcesamiento
  {
    var e1 := Event(o.id, false, t);
    var e2 := Event(o.id, true, t);
    assert CountItemsOrderById([o], o.id) == Ok(1);
    assert GetOrderByIdOrOrderNumber([o], Some(o.id), None) == Some(0);
    FailureCancels(map[], [o], e1, 1);
    var s1 := Step(map[], [o], e1);
    assert s1.1 == map[];
    CountItemsSameShape([o], s1.2, o.id);
    SuccessCounts(s1.1, s1.2, e2, 1);
    var s2 := Step(s1.1, s1.2, e2);
    SameShapeKeepsUniqueKeys([o], s1.2);
    AdvanceSetsProcessing(s1.1, s1.2, e2, 0);
    RunFirst(Step, s1.1, s1.2, e2, []);
    RunFirst(Step, map[], [o], e1, [e2]);
  }

  /** The corrected consumer's state: the entry map and the orders already
      decided, cancelled or advanced. */
  datatype Ledger = Ledger(validations: Validations, decided: set<Guid>)

  /** An outcome that settles the order. */
  predicate IsDecision(out: Outcome) {
    out == Cancelled || out == Advanced
  }

  /** Corrected `Consume`: an event for a decided order is ignored; any
      other is handled as `Step` handles it, and a decision is recorded. */
  function DecidedOnceStep(l: Ledger, orders: seq<Order>, e: Event): (r: (Outcome, Ledger, seq<Order>))
    ensures e.orderId in l.decided ==> r == (Ignored, l, orders)
    ensures e.orderId !in l.decided ==>
              && (r.0, r.1.validations, r.2) == Step(l.validations, orders, e)
              && (IsDecision(r.0) ==> e.orderId in r.1.decided)
    ensures l.decided <= r.1.decided <= l.decided + {e.orderId}
  {
    if e.orderId in l.decided then (Ignored, l, orders)
    else
      var s := Step(l.validations, orders, e);
      (s.0, Ledger(s.1, if IsDecision(s.0) then l.decided + {e.orderId} else l.decided), s.2)
  }

  /** Events handled one after another by the corrected consumer. */
  function DecidedOnceRun(l: Ledger, orders: seq<Order>, events: seq<Event>): (r: (seq<Outcome>, Ledger, seq<Order>))
    ensures |r.0| == |events|
    decreases |events|
  {
    if events == [] then ([], l, orders)
    else
      var s := DecidedOnceStep(l, orders, events[0]);
      var rest := DecidedOnceRun(s.1, s.2, events[1..]);
      ([s.0] + rest.0, rest.1, rest.2)
  }

  /** One step of `DecidedOnceRun`, unfolded for a known first event. */
  lemma DecidedOnceRunFirst(l: Ledger, orders: seq<Order>, e: Event, rest: seq<Event>)
    ensures var s := DecidedOnceStep(l, orders, e);
            var r := DecidedOnceRun(s.1, s.2, rest);
            DecidedOnceRun(l, orders, [e] + rest) == ([s.0] + r.0, r.1, r.2)
  {
    assert ([e] + rest)[0] == e;
    assert ([e] + rest)[1..] == rest;
  }

  /** How many events for `id` settled their order. */
  function Decisions(events: seq<Event>, outs: seq<Outcome>, id: Guid): nat
    requires |outs| == |events|
  {
    if events == [] then 0
    else (if events[0].orderId == id && IsDecision(outs[0]) then 1 else 0)
         + Decisions(events[1..], outs[1..], id)
  }

  /** Whatever the events and however often each is delivered, the
      corrected consumer settles each order at most once, and never one
      already settled. */
  lemma {:induction false} DecidedAtMostOnce(l: Ledger, orders: seq<Order>, events: seq<Event>, id: Guid)
    ensures Decisions(events, DecidedOnceRun(l, orders, events).0, id) <= (if id in l.decided then 0 else 1)
    decreases |events|
  {
    if events != [] {
      var s := DecidedOnceStep(l, orders, events[0]);
      var rest := DecidedOnceRun(s.1, s.2, events[1..]);
      DecidedAtMostOnce(s.1, s.2, events[1..], id);
      var outs := DecidedOnceRun(l, orders, events).0;
      assert outs[0] == s.0 && outs[1..] == rest.0;
    }
  }

  /** With the correction, a success after the failure that cancelled a
      one-item order is ignored, and the order stays cancelled. */
  lemma CorrectedSuccessAfterFailureIsIgnored(o: Order, t: Date)
    requires |o.items| == 1 && o.orderStatus == Pendiente
    ensures var r := DecidedOnceRun(Ledger(map[], {}), [o], [Event(o.id, false, t), Event(o.id, true, t)]);
            && r.0 == [Cancelled, Ignored]
            && r.2 == [o.(orderStatus := Cancelado, updateAt := Some(t))]
  {
    var e1 := Event(o.id, false, t);
    var e2 := Event(o.id, true, t);
    assert CountItemsOrderById([o], o.id) == Ok(1);
    assert GetOrderByIdOrOrderNumber([o], Some(o.id), None) == Some(0);
    FailureCancels(map[], [o], e1, 1);
    var cancel := CancelateOrder([o], Some(o.id), None, t);
    assert cancel.1 == [o.(orderStatus := Cancelado, updateAt := Some(t))];
    var s1 := DecidedOnceStep(Ledger(map[], {}), [o], e1);
    assert s1.0 == Cancelled && s1.2 == cancel.1;
    assert o.id in s1.1.decided;
    DecidedOnceRunFirst(s1.1, s1.2, e2, []);
    DecidedOnceRunFirst(Ledger(map[], {}), [o], e1, [e2]);
  }

  /** The consumer: one shared entry map, as the static dictionary is, and
      the repository it calls. */
  class StockValidationConsumer {
    const repository: Repository.OrderRepository
    var validations: Validations

    constructor(repository: Repository.OrderRepository)
      ensures this.repository == repository && validations == map[]
    {
      this.repository := repository;
      validations := map[];
    }

    /** `Consume`: handles one event against the repository. */
    method Consume(e: Event) returns (outcome: Outcome)
      requires repository.Valid()
      modifies this, repository
      ensures repository.Valid()
      ensures (outcome, validations, repository.orders) == Step(old(validations), old(repository.orders), e)
      ensures repository.outbox == old(repository.outbox)
    {
      var totalItems := repository.CountItemsOrderById(e.orderId);
      if totalItems.Err? {
        return Failed(totalItems.error);
      }
      var state := GetOrAdd(validations, e.orderId, totalItems.value);
      validations := validations[e.orderId := state];
      if !e.ok {
        var cancelled := repository.CancelateOrder(Some(e.orderId), None, e.today);
        if cancelled.Err? {
          return Failed(cancelled.error);
        }
        validations := validations - {e.orderId};
        return Cancelled;
      }
      var validated := state.validatedCount + 1;
      validations := validations[e.orderId := state.(validatedCount := validated)];
      if validated == totalItems.value {
        var changed := repository.ChangeStateOrder(Some(e.orderId), None, ToProcessing, e.today);
        assert changed.Ok?;
        validations := validations - {e.orderId};
        return Advanced;
      }
      return Progress(validated);
    }
  }
}
