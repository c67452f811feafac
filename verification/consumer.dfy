/**
 * The decision the order consumer takes on each delivery: reject it (the
 * broker requeues it), keep it in a slot and forward the order to the
 * processor, keep it without forwarding, acknowledge it at once, or, when
 * its body is not an order, answer it with an error response
 * (rs_mcai_worker_sdk/src/message_exchange/rabbitmq/consumer.rs, `process_delivery`
 * and the error branch of its caller).
 */
module Consumer {
  import opened Wrappers
  import opened Jobs
  import opened Orders
  import opened CurrentOrdering
  import SimpleProcessing

  /** The held deliveries and the switches of the job-queue consumers. */
  datatype ConsumerState = ConsumerState(orders: CurrentOrders, triggers: seq<bool>)

  datatype Decision =
    | Rejected
    | Forwarded(order: OrderMessage)
    | Stored
    | Acknowledged
    /** Not an order: the consumer publishes an error response for the delivery. */
    | Unreadable(error: MessageError)

  datatype Admission = Admission(state: ConsumerState, decision: Decision)

  /** Orders the consumer handles itself by switching the job-queue consumers. */
  predicate Consuming(order: OrderMessage) {
    order.StopConsumingJobs? || order.ResumeConsumingJobs?
  }

  /** Orders the consumer keeps in the stop slot without forwarding them. */
  predicate Stopping(order: OrderMessage) {
    order.StopProcess? || order.StopWorker?
  }

  /** The slot a delivery of this order goes to. */
  function SlotOf(orders: CurrentOrders, order: OrderMessage): Option<Delivery>
    requires !Consuming(order)
  {
    match order
    case JobOrder(_) => orders.job
    case InitProcess(_) => orders.init
    case StartProcess(_) => orders.start
    case Status => orders.status
    case _ => orders.stop
  }

  /**
   * The slots whose delivery blocks an order: the order's own slot, and in
   * addition the job slot for an initialisation and the init, start and job
   * slots for a job.
   */
  predicate Blocked(orders: CurrentOrders, order: OrderMessage)
    requires !Consuming(order)
  {
    || SlotOf(orders, order).Some?
    || ((order.JobOrder? || order.InitProcess?) && orders.job.Some?)
    || (order.JobOrder? && (orders.init.Some? || orders.start.Some?))
  }

  function SetAll(triggers: seq<bool>, value: bool): (r: seq<bool>)
    ensures |r| == |triggers|
    ensures forall i :: 0 <= i < |r| ==> r[i] == value
  {
    seq(|triggers|, _ => value)
  }

  /** The admission step of `process_delivery` for a readable order. */
  function Admit(s: ConsumerState, order: OrderMessage, delivery: Delivery): (r: Admission)
    ensures Consuming(order) ==> r.decision == Acknowledged && r.state.orders == s.orders
    ensures Consuming(order) ==> r.state.triggers == SetAll(s.triggers, order.ResumeConsumingJobs?)
    ensures !Consuming(order) ==> r.state.triggers == s.triggers
    ensures !Consuming(order) ==> (r.decision == Rejected <==> Blocked(s.orders, order))
    ensures r.decision == Rejected ==> r.state == s
    ensures !Consuming(order) && r.decision != Rejected ==>
      && SlotOf(r.state.orders, order) == Some(delivery)
      && r.decision == (if Stopping(order) then Stored else Forwarded(order))
  {
    var o := s.orders;
    match order
    case JobOrder(_) =>
      if o.init.Some? || o.start.Some? || o.job.Some? then Admission(s, Rejected)
      else Admission(s.(orders := o.(job := Some(delivery))), Forwarded(order))
    case InitProcess(_) =>
      if o.init.Some? || o.job.Some? then Admission(s, Rejected)
      else Admission(s.(orders := o.(init := Some(delivery))), Forwarded(order))
    case StartProcess(_) =>
      if o.start.Some? then Admission(s, Rejected)
      else Admission(s.(orders := o.(start := Some(delivery))), Forwarded(order))
    case StopProcess(_) =>
      if o.stop.Some? then Admission(s, Rejected)
      else Admission(s.(orders := o.(stop := Some(delivery))), Stored)
    case StopWorker =>
      if o.stop.Some? then Admission(s, Rejected)
      else Admission(s.(orders := o.(stop := Some(delivery))), Stored)
    case Status =>
      if o.status.Some? then Admission(s, Rejected)
      else Admission(s.(orders := o.(status := Some(delivery))), Forwarded(order))
    case StopConsumingJobs => Admission(s.(triggers := SetAll(s.triggers, false)), Acknowledged)
    case ResumeConsumingJobs => Admission(s.(triggers := SetAll(s.triggers, true)), Acknowledged)
  }

  /**
   * `process_delivery`: the body is read as an order (or a bare job). A body
   * that is neither is answered with an error response and changes no slot
   * and no trigger; it is never rejected back to the queue. A readable order
   * is rejected exactly when it is not a consuming order and its slots are
   * blocked, and is otherwise held, forwarded or acknowledged.
   */
  function Receive(s: ConsumerState, delivery: Delivery, parseOrder: string -> Result<OrderMessage, string>, parseJob: string -> Option<Job>): (r: Admission)
    ensures r.decision.Unreadable? <==> parseOrder(delivery.data).Err? && parseJob(delivery.data).None?
    ensures r.decision.Unreadable? ==>
      r.state == s && r.decision.error == RuntimeError(parseOrder(delivery.data).error)
    ensures r.decision == Rejected <==>
      TryFrom(delivery.data, parseOrder, parseJob).Ok?
      && !Consuming(TryFrom(delivery.data, parseOrder, parseJob).value)
      && Blocked(s.orders, TryFrom(delivery.data, parseOrder, parseJob).value)
    ensures r.decision == Rejected ==> r.state == s
    ensures r.decision.Forwarded? ==> r.decision.order == TryFrom(delivery.data, parseOrder, parseJob).value
    ensures r.decision.Forwarded? || r.decision == Stored ==>
      var order := TryFrom(delivery.data, parseOrder, parseJob).value;
      !Consuming(order) && SlotOf(r.state.orders, order) == Some(delivery)
      && (r.decision == Stored <==> Stopping(order))
    ensures r.decision == Acknowledged ==> Consuming(TryFrom(delivery.data, parseOrder, parseJob).value)
  {
    match TryFrom(delivery.data, parseOrder, parseJob)
    case Err(e) => Admission(s, Unreadable(e))
    case Ok(order) => Admit(s, order, delivery)
  }

  /** No slot that holds a delivery is overwritten. */
  lemma HeldSlotsKept(s: ConsumerState, order: OrderMessage, delivery: Delivery)
    ensures var o := Admit(s, order, delivery).state.orders;
            && (s.orders.init.Some? ==> o.init == s.orders.init)
            && (s.orders.start.Some? ==> o.start == s.orders.start)
            && (s.orders.stop.Some? ==> o.stop == s.orders.stop)
            && (s.orders.status.Some? ==> o.status == s.orders.status)
            && (s.orders.job.Some? ==> o.job == s.orders.job)
  {
  }

  /** Admission fills at most the order's own slot and empties none. */
  lemma OnlyOwnSlotFilled(s: ConsumerState, order: OrderMessage, delivery: Delivery)
    requires !Consuming(order)
    ensures var o := Admit(s, order, delivery).state.orders;
            && (o.init != s.orders.init ==> order.InitProcess?)
            && (o.start != s.orders.start ==> order.StartProcess?)
            && (o.stop != s.orders.stop ==> Stopping(order))
            && (o.status != s.orders.status ==> order.Status?)
            && (o.job != s.orders.job ==> order.JobOrder?)
  {
  }

  /** The processor is never sent a stop or a consuming order. */
  lemma ForwardedOrders(s: ConsumerState, order: OrderMessage, delivery: Delivery)
    ensures Admit(s, order, delivery).decision.Forwarded? ==>
      && Admit(s, order, delivery).decision.order == order
      && !Consuming(order) && !Stopping(order)
  {
  }

  /** Every forwarded order is one the processor's `handle` has an arm for. */
  lemma ForwardedIsHandled(s: ConsumerState, order: OrderMessage, delivery: Delivery)
    requires Admit(s, order, delivery).decision.Forwarded?
    ensures SimpleProcessing.Handled(Admit(s, order, delivery).decision.order)
  {
  }

  /** What the publisher does with the slots once a response has gone out. */
  datatype Event =
    | Delivered(order: OrderMessage, delivery: Delivery)
    | ProcessReset
    | StatusReset

  function Step(s: ConsumerState, e: Event): ConsumerState {
    match e
    case Delivered(order, delivery) => Admit(s, order, delivery).state
    case ProcessReset => s.(orders := ResetProcessDeliveries(s.orders))
    case StatusReset => s.(orders := ResetStatusDeliveries(s.orders))
  }

  function Run(s: ConsumerState, events: seq<Event>): ConsumerState
    decreases |events|
  {
    if |events| == 0 then s else Run(Step(s, events[0]), events[1..])
  }

  /**
   * Nothing empties the job slot: once a job has been admitted, every later
   * job or initialisation order is rejected, whatever resets come between.
   */
  lemma {:induction false} JobSlotSticky(s: ConsumerState, events: seq<Event>, order: OrderMessage, delivery: Delivery)
    requires s.orders.job.Some?
    requires order.JobOrder? || order.InitProcess?
    ensures Run(s, events).orders.job == s.orders.job
    ensures Admit(Run(s, events), order, delivery).decision == Rejected
    decreases |events|
  {
    if |events| > 0 {
      if events[0].Delivered? {
        HeldSlotsKept(s, events[0].order, events[0].delivery);
      }
      JobSlotSticky(Step(s, events[0]), events[1..], order, delivery);
    }
  }

  /** From no orders at all, a first job is forwarded and a second one is rejected. */
  lemma SecondJobRejected(triggers: seq<bool>, a: Job, b: Job, da: Delivery, db: Delivery)
    ensures Admit(ConsumerState(NoOrders, triggers), JobOrder(a), da).decision == Forwarded(JobOrder(a))
    ensures Admit(Admit(ConsumerState(NoOrders, triggers), JobOrder(a), da).state, JobOrder(b), db).decision == Rejected
  {
  }
}
