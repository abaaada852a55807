/**
 The payment service: one charge workflow per order, its reply activity deduplicated by order id, and the gateway that
 answers a repeated charge command from the workflow's result.
 */
module Payment {
  import opened Results
  import opened Sequences

  datatype ProviderResult = ProviderResult(ok: bool, pending: bool)

  datatype ChargeInput = ChargeInput(orderId: nat, tenantId: string, totalCents: int, correlationId: string)

  /** A workflow: charging, waiting for the provider's word, replying, or closed. */
  datatype Workflow =
    | Charging(input: ChargeInput, reconciled: Option<ProviderResult>)
    | Waiting(input: ChargeInput, decided: ProviderResult, reconciled: Option<ProviderResult>)
    | Replying(input: ChargeInput, outcome: ProviderResult)
    | Completed(input: ChargeInput, outcome: ProviderResult)
    | Failed(input: ChargeInput, last: Option<ProviderResult>)

  // A reply row, and whether the activity or the gateway appended it.
  datatype Reply = Reply(orderId: nat, tenantId: string, ok: bool, correlationId: string, recovered: bool)

  datatype Payments = Payments(workflows: map<nat, Workflow>, processed: set<nat>, outbox: seq<Reply>)

  const NO_PAYMENTS := Payments(map[], {}, [])

  /** One step of the service. `recovers` says whether describing a completed workflow and reading its result succeeded;
      `Forget` is the end of a closed workflow's retention. */
  datatype PaymentStep =
    | StartCharge(input: ChargeInput, recovers: bool)
    | Signal(orderId: nat, result: ProviderResult)
    | ChargeReturns(orderId: nat, decided: ProviderResult)
    | WindowCloses(orderId: nat)
    | EmitReply(orderId: nat)
    | Finish(orderId: nat)
    | Fail(orderId: nat)
    | Forget(orderId: nat)

  function OutcomeOf(reconciled: Option<ProviderResult>, decided: ProviderResult): ProviderResult {
    if reconciled.Some? then reconciled.value else decided
  }

  function Signalled(w: Workflow, result: ProviderResult): Workflow {
    match w
    case Charging(input, _) => Charging(input, Some(result))
    case Waiting(input, decided, _) => Waiting(input, decided, Some(result))
    case _ => w
  }

  function ChargeReturned(w: Workflow, decided: ProviderResult): Workflow {
    match w
    case Charging(input, reconciled) =>
      if decided.pending && reconciled.None? then Waiting(input, decided, None)
      else Replying(input, OutcomeOf(reconciled, decided))
    case _ => w
  }

  function WindowClosed(w: Workflow): Workflow {
    match w
    case Waiting(input, decided, reconciled) => Replying(input, OutcomeOf(reconciled, decided))
    case _ => w
  }

  function FailedFrom(w: Workflow): Workflow {
    match w
    case Replying(input, outcome) => Failed(input, Some(outcome))
    case Charging(input, _) => Failed(input, None)
    case Waiting(input, _, _) => Failed(input, None)
    case _ => w
  }

  function With(p: Payments, orderId: nat, w: Workflow): Payments {
    p.(workflows := p.workflows[orderId := w])
  }

  // The workflow client refuses a second start under the same id; only a completed workflow is asked for its result.
  function ChargeStarted(p: Payments, input: ChargeInput, recovers: bool): Payments {
    if input.orderId !in p.workflows then With(p, input.orderId, Charging(input, None))
    else
      match p.workflows[input.orderId]
      case Completed(_, outcome) =>
        if recovers then p.(outbox := p.outbox + [Reply(input.orderId, input.tenantId, outcome.ok, input.correlationId, true)])
        else p
      case _ => p
  }

  // The reply activity: the order id is the dedupe key.
  function Emitted(p: Payments, orderId: nat): Payments {
    if orderId in p.workflows && p.workflows[orderId].Replying? && orderId !in p.processed then
      var w := p.workflows[orderId];
      p.(processed := p.processed + {orderId},
         outbox := p.outbox + [Reply(orderId, w.input.tenantId, w.outcome.ok, w.input.correlationId, false)])
    else p
  }

  function PaymentNext(p: Payments, s: PaymentStep): Payments {
    match s
    case StartCharge(input, recovers) => ChargeStarted(p, input, recovers)
    case Signal(id, result) => if id in p.workflows then With(p, id, Signalled(p.workflows[id], result)) else p
    case ChargeReturns(id, decided) => if id in p.workflows then With(p, id, ChargeReturned(p.workflows[id], decided)) else p
    case WindowCloses(id) => if id in p.workflows then With(p, id, WindowClosed(p.workflows[id])) else p
    case EmitReply(id) => Emitted(p, id)
    case Finish(id) =>
      if id in p.workflows && p.workflows[id].Replying? && id in p.processed
      then With(p, id, Completed(p.workflows[id].input, p.workflows[id].outcome)) else p
    case Fail(id) => if id in p.workflows then With(p, id, FailedFrom(p.workflows[id])) else p
    case Forget(id) =>
      if id in p.workflows && (p.workflows[id].Completed? || p.workflows[id].Failed?) then p.(workflows := p.workflows - {id}) else p
  }

  function PaymentRun(steps: seq<PaymentStep>): Payments {
    if steps == [] then NO_PAYMENTS else PaymentNext(PaymentRun(steps[..|steps| - 1]), steps[|steps| - 1])
  }

  /** The workflow's own code: the last signal seen before replying overrides what the charge activity decided. */
  class ChargeWorkflow {
    const input: ChargeInput
    var reconciled: Option<ProviderResult>

    constructor (input: ChargeInput)
      ensures this.input == input && reconciled == None
    {
      this.input := input;
      reconciled := None;
    }

    // The signal handler.
    method OnProviderResult(result: ProviderResult)
      modifies this`reconciled
      ensures reconciled == Some(result)
    {
      reconciled := Some(result);
    }

    // Signals that arrive while the workflow is suspended.
    method Suspend(signals: seq<ProviderResult>)
      modifies this`reconciled
      ensures reconciled == if signals == [] then old(reconciled) else Some(signals[|signals| - 1])
    {
      for i := 0 to |signals|
        invariant reconciled == if i == 0 then old(reconciled) else Some(signals[i - 1])
      {
        OnProviderResult(signals[i]);
      }
    }

    // While charging, and, if the charge is pending and nothing has come yet, within the reconcile window.
    method Execute(decided: ProviderResult, early: seq<ProviderResult>, late: seq<ProviderResult>) returns (outcome: ProviderResult)
      requires reconciled == None
      modifies this`reconciled
      ensures early != [] ==> outcome == early[|early| - 1]
      ensures early == [] && decided.pending && late != [] ==> outcome == late[|late| - 1]
      ensures early == [] && (!decided.pending || late == []) ==> outcome == decided
    {
      Suspend(early);
      if decided.pending && reconciled.None? {
        Suspend(late);
      }
      outcome := if reconciled.Some? then reconciled.value else decided;
    }
  }

  /** The tables behind the reply activity and the gateway. */
  class PaymentTables {
    var workflows: map<nat, Workflow>
    var processed: set<nat>
    var outbox: seq<Reply>

    function Current(): Payments
      reads this
    {
      Payments(workflows, processed, outbox)
    }

    constructor ()
      ensures Current() == NO_PAYMENTS
    {
      workflows, processed, outbox := map[], {}, [];
    }

    /** One attempt of the reply activity on behalf of a replying workflow. */
    method EmitReplyActivity(input: ChargeInput, ok: bool)
      requires input.orderId in workflows && workflows[input.orderId].Replying?
      requires workflows[input.orderId].input == input && workflows[input.orderId].outcome.ok == ok
      modifies this`processed, this`outbox
      ensures Current() == Emitted(old(Current()), input.orderId)
    {
      if input.orderId in processed {
        return;
      }
      processed := processed + {input.orderId};
      outbox := outbox + [Reply(input.orderId, input.tenantId, ok, input.correlationId, false)];
    }

    /** A charge command reaching the gateway. */
    method StartChargeWorkflow(input: ChargeInput, recovers: bool)
      modifies this`workflows, this`outbox
      ensures Current() == ChargeStarted(old(Current()), input, recovers)
    {
      if input.orderId !in workflows {
        workflows := workflows[input.orderId := Charging(input, None)];
        return;
      }
      if !workflows[input.orderId].Completed? || !recovers {
        return;
      }
      var result := workflows[input.orderId].outcome;
      outbox := outbox + [Reply(input.orderId, input.tenantId, result.ok, input.correlationId, true)];
    }
  }

  // The same workflow as a run of the step system.
  function AfterSignals(w: Workflow, signals: seq<ProviderResult>): Workflow {
    if signals == [] then w else Signalled(AfterSignals(w, signals[..|signals| - 1]), signals[|signals| - 1])
  }

  lemma {:induction false} SignalsKeepTheLast(w: Workflow, signals: seq<ProviderResult>)
    requires w.Charging? || w.Waiting?
    ensures AfterSignals(w, signals) == if signals == [] then w else w.(reconciled := Some(signals[|signals| - 1]))
  {
    if signals != [] {
      SignalsKeepTheLast(w, signals[..|signals| - 1]);
    }
  }

  /** The workflow taken step by step replies with the last signal that came before the charge returned; without one, and with the
      charge pending, with the last that came in the window; and otherwise with what the charge decided. */
  lemma StepsReachOutcome(input: ChargeInput, decided: ProviderResult, early: seq<ProviderResult>, late: seq<ProviderResult>)
    ensures WindowClosed(AfterSignals(ChargeReturned(AfterSignals(Charging(input, None), early), decided), late))
            == Replying(input, if early != [] then early[|early| - 1]
                               else if decided.pending && late != [] then late[|late| - 1]
                               else decided)
  {
    SignalsKeepTheLast(Charging(input, None), early);
    var charged := ChargeReturned(AfterSignals(Charging(input, None), early), decided);
    if charged.Waiting? {
      SignalsKeepTheLast(charged, late);
    } else {
      SignalsIgnored(charged, late);
    }
  }

  lemma {:induction false} SignalsIgnored(w: Workflow, signals: seq<ProviderResult>)
    requires w.Replying?
    ensures AfterSignals(w, signals) == w
  {
    if signals != [] {
      SignalsIgnored(w, signals[..|signals| - 1]);
    }
  }

  // ----- Replies -----

  function ReplyOf(id: nat): Reply -> bool {
    (r: Reply) => r.orderId == id
  }

  function RepliesOf(p: Payments, id: nat): seq<Reply> {
    Filter(p.outbox, ReplyOf(id))
  }

  // A charge command for an order whose workflow has completed, answered from its result.
  predicate Recovers(p: Payments, s: PaymentStep, id: nat) {
    s.StartCharge? && s.recovers && s.input.orderId == id && id in p.workflows && p.workflows[id].Completed?
  }

  function Recoveries(steps: seq<PaymentStep>, id: nat): nat {
    if steps == [] then 0
    else
      var init, last := steps[..|steps| - 1], steps[|steps| - 1];
      Recoveries(init, id) + if Recovers(PaymentRun(init), last, id) then 1 else 0
  }

  lemma RepliesSnoc(p: Payments, r: Reply, id: nat)
    ensures RepliesOf(p.(outbox := p.outbox + [r]), id) == SnocIf(RepliesOf(p, id), r.orderId == id, r)
  {
    FilterSnoc(p.outbox, r, ReplyOf(id));
  }

  // What one step adds to an order's replies.
  function AddedReplies(p: Payments, s: PaymentStep, id: nat): seq<Reply> {
    if Recovers(p, s, id) then [Reply(id, s.input.tenantId, p.workflows[id].outcome.ok, s.input.correlationId, true)]
    else if s == EmitReply(id) && id in p.workflows && p.workflows[id].Replying? && id !in p.processed
    then [Reply(id, p.workflows[id].input.tenantId, p.workflows[id].outcome.ok, p.workflows[id].input.correlationId, false)]
    else []
  }

  lemma StepAddsReplies(p: Payments, s: PaymentStep, id: nat)
    ensures RepliesOf(PaymentNext(p, s), id) == RepliesOf(p, id) + AddedReplies(p, s, id)
  {
    assert RepliesOf(p, id) + [] == RepliesOf(p, id);
    match s
    case StartCharge(input, recovers) =>
      if Recovers(p, s, input.orderId) {
        RepliesSnoc(p, Reply(input.orderId, input.tenantId, p.workflows[input.orderId].outcome.ok, input.correlationId, true), id);
      }
    case EmitReply(orderId) =>
      if orderId in p.workflows && p.workflows[orderId].Replying? && orderId !in p.processed {
        var w := p.workflows[orderId];
        RepliesSnoc(p, Reply(orderId, w.input.tenantId, w.outcome.ok, w.input.correlationId, false), id);
        assert Emitted(p, orderId).outbox == p.(outbox := p.outbox + [Reply(orderId, w.input.tenantId, w.outcome.ok, w.input.correlationId, false)]).outbox;
      }
    case _ =>
  }

  ghost predicate CompletedReplied(p: Payments) {
    forall id <- p.workflows :: p.workflows[id].Completed? ==> id in p.processed
  }

  lemma {:induction false} RunCompletedReplied(steps: seq<PaymentStep>)
    ensures CompletedReplied(PaymentRun(steps))
  {
    if steps != [] {
      RunCompletedReplied(steps[..|steps| - 1]);
      StepCompletedReplied(PaymentRun(steps[..|steps| - 1]), steps[|steps| - 1]);
    }
  }

  lemma StepCompletedReplied(p: Payments, s: PaymentStep)
    requires CompletedReplied(p)
    ensures CompletedReplied(PaymentNext(p, s))
  {
  }

  /** How many replies an order gets: one from the activity, however often it or the workflow is repeated, and one more for
      every charge command that finds the workflow completed. */
  lemma {:induction false} ReplyCount(steps: seq<PaymentStep>, id: nat)
    ensures |RepliesOf(PaymentRun(steps), id)| == Recoveries(steps, id) + if id in PaymentRun(steps).processed then 1 else 0
    ensures Recoveries(steps, id) > 0 ==> id in PaymentRun(steps).processed
  {
    if steps != [] {
      var init, last := steps[..|steps| - 1], steps[|steps| - 1];
      ReplyCount(init, id);
      RunCompletedReplied(init);
      StepAddsReplies(PaymentRun(init), last, id);
      StepProcesses(PaymentRun(init), last, id);
    }
  }

  lemma StepProcesses(p: Payments, s: PaymentStep, id: nat)
    ensures id in PaymentNext(p, s).processed
            <==> id in p.processed || (s == EmitReply(id) && id in p.workflows && p.workflows[id].Replying?)
  {
  }

  /** "Payment sends exactly one reply" holds exactly for the orders no charge command reached after their workflow completed. */
  lemma AtMostOneReplyExactlyWhen(steps: seq<PaymentStep>, id: nat)
    ensures |RepliesOf(PaymentRun(steps), id)| <= 1 <==> Recoveries(steps, id) == 0
  {
    ReplyCount(steps, id);
  }

  // ----- All replies say the same -----

  // The outcome a workflow has settled on; a failed one keeps what it had.
  function Settled(w: Workflow): Option<ProviderResult> {
    match w
    case Replying(_, outcome) => Some(outcome)
    case Completed(_, outcome) => Some(outcome)
    case Failed(_, last) => last
    case _ => None
  }

  function SettledOf(p: Payments, id: nat): Option<ProviderResult> {
    if id in p.workflows then Settled(p.workflows[id]) else None
  }

  ghost predicate RepliesSay(p: Payments, id: nat, ok: bool) {
    forall r <- RepliesOf(p, id) :: r.ok == ok
  }

  /** The replies of an order agree, and with its workflow's outcome if it has one; without a reply there is no dedupe row,
      and a workflow still deciding has neither. */
  ghost predicate Faithful(p: Payments, id: nat) {
    && (RepliesSay(p, id, true) || RepliesSay(p, id, false))
    && (SettledOf(p, id).Some? ==> RepliesSay(p, id, SettledOf(p, id).value.ok))
    && (id in p.processed <==> RepliesOf(p, id) != [])
    && (id in p.workflows && SettledOf(p, id).None? ==> RepliesOf(p, id) == [])
    && (id in p.workflows && p.workflows[id].Completed? ==> id in p.processed)
  }

  /** A charge command that starts a workflow again for an order already answered: its first one is no longer retained. */
  predicate Restarts(p: Payments, s: PaymentStep, id: nat) {
    s.StartCharge? && s.input.orderId == id && id !in p.workflows && id in p.processed
  }

  lemma StepKeepsFaithful(p: Payments, s: PaymentStep, id: nat)
    requires Faithful(p, id) && !Restarts(p, s, id)
    ensures Faithful(PaymentNext(p, s), id)
  {
    var next, added := PaymentNext(p, s), AddedReplies(p, s, id);
    StepAddsReplies(p, s, id);
    StepProcesses(p, s, id);
    StepSettles(p, s, id);
    if SettledOf(p, id).Some? {
      AddedSay(p, s, id, next, SettledOf(p, id).value.ok);
    } else {
      assert added == [] && RepliesOf(next, id) == RepliesOf(p, id);
    }
  }

  lemma AddedSay(p: Payments, s: PaymentStep, id: nat, next: Payments, ok: bool)
    requires RepliesOf(next, id) == RepliesOf(p, id) + AddedReplies(p, s, id)
    requires RepliesSay(p, id, ok) && SettledOf(p, id).Some? && SettledOf(p, id).value.ok == ok
    ensures RepliesSay(next, id, ok)
  {
    assert forall r <- AddedReplies(p, s, id) :: r.ok == ok;
  }

  // An outcome, once settled, stays until the workflow is forgotten.
  lemma StepSettles(p: Payments, s: PaymentStep, id: nat)
    ensures var next := PaymentNext(p, s);
            && (SettledOf(p, id).Some? && id in next.workflows ==> SettledOf(next, id) == SettledOf(p, id))
            && (id in next.workflows && id !in p.workflows ==> s.StartCharge? && s.input.orderId == id && SettledOf(next, id).None?)
            && (id in next.workflows && next.workflows[id].Completed? ==>
                  id in p.workflows && (p.workflows[id].Completed? || id in p.processed))
  {
  }

  ghost predicate NeverRestarted(steps: seq<PaymentStep>, id: nat) {
    forall k :: 0 <= k < |steps| ==> !Restarts(PaymentRun(steps[..k]), steps[k], id)
  }

  lemma NeverRestartedBefore(steps: seq<PaymentStep>, id: nat)
    requires NeverRestarted(steps, id) && steps != []
    ensures NeverRestarted(steps[..|steps| - 1], id)
    ensures !Restarts(PaymentRun(steps[..|steps| - 1]), steps[|steps| - 1], id)
  {
    var init := steps[..|steps| - 1];
    assert forall k :: 0 <= k < |init| ==> init[..k] == steps[..k];
  }

  /** All replies sent for an order, by the activity or the gateway, say the same, and it is what its workflow decided,
      unless a charge command starts a second workflow after the answered first one was forgotten. Forgetting alone does
      no harm. */
  lemma {:induction false} RepliesRepeatTheOutcome(steps: seq<PaymentStep>, id: nat)
    requires NeverRestarted(steps, id)
    ensures Faithful(PaymentRun(steps), id)
  {
    if steps == [] {
      assert RepliesSay(NO_PAYMENTS, id, true);
    } else {
      NeverRestartedBefore(steps, id);
      RepliesRepeatTheOutcome(steps[..|steps| - 1], id);
      StepKeepsFaithful(PaymentRun(steps[..|steps| - 1]), steps[|steps| - 1], id);
    }
  }

  // ----- What the replies say -----

  // The step that started the order's present workflow.
  predicate Starts(p: Payments, s: PaymentStep, id: nat) {
    s.StartCharge? && s.input.orderId == id && id !in p.workflows
  }

  function StartedWith(steps: seq<PaymentStep>, id: nat): Option<ChargeInput> {
    if steps == [] then None
    else
      var init, s := steps[..|steps| - 1], steps[|steps| - 1];
      if Starts(PaymentRun(init), s, id) then Some(s.input) else StartedWith(init, id)
  }

  // The workflow still listens.
  predicate Listens(p: Payments, id: nat) {
    id in p.workflows && (p.workflows[id].Charging? || p.workflows[id].Waiting?)
  }

  /** The last signal that found the workflow charging or waiting. */
  function Heard(steps: seq<PaymentStep>, id: nat): Option<ProviderResult> {
    if steps == [] then None
    else
      var init, s := steps[..|steps| - 1], steps[|steps| - 1];
      if Starts(PaymentRun(init), s, id) then None
      else if s.Signal? && s.orderId == id && Listens(PaymentRun(init), id) then Some(s.result)
      else Heard(init, id)
  }

  /** What the charge activity returned to it. */
  function Returned(steps: seq<PaymentStep>, id: nat): Option<ProviderResult> {
    if steps == [] then None
    else
      var init, s := steps[..|steps| - 1], steps[|steps| - 1];
      if Starts(PaymentRun(init), s, id) then None
      else if s.ChargeReturns? && s.orderId == id && id in PaymentRun(init).workflows && PaymentRun(init).workflows[id].Charging?
      then Some(s.decided)
      else Returned(init, id)
  }

  /** The provider's word if there was one in time, else the charge's own result. */
  function LastWord(steps: seq<PaymentStep>, id: nat): Option<ProviderResult> {
    if Heard(steps, id).Some? then Heard(steps, id) else Returned(steps, id)
  }

  // Where the workflow stands is decided by what it was started with, what it heard and what the charge returned.
  ghost predicate Follows(w: Workflow, input: Option<ChargeInput>, heard: Option<ProviderResult>, returned: Option<ProviderResult>) {
    && Some(w.input) == input
    && match w
       case Charging(_, reconciled) => reconciled == heard && returned == None
       case Waiting(_, decided, reconciled) => reconciled == heard && returned == Some(decided)
       case Replying(_, outcome) => Some(outcome) == if heard.Some? then heard else returned
       case Completed(_, outcome) => Some(outcome) == if heard.Some? then heard else returned
       case Failed(_, _) => true
  }

  ghost predicate FollowsIn(p: Payments, id: nat, input: Option<ChargeInput>, heard: Option<ProviderResult>, returned: Option<ProviderResult>) {
    id in p.workflows ==> Follows(p.workflows[id], input, heard, returned)
  }

  lemma StepFollows(steps: seq<PaymentStep>, s: PaymentStep, id: nat, p: Payments)
    requires p == PaymentRun(steps) && FollowsIn(p, id, StartedWith(steps, id), Heard(steps, id), Returned(steps, id))
    ensures var all := steps + [s];
            FollowsIn(PaymentNext(p, s), id, StartedWith(all, id), Heard(all, id), Returned(all, id))
  {
    assert (steps + [s])[..|steps|] == steps;
  }

  lemma {:induction false} WorkflowFollows(steps: seq<PaymentStep>, id: nat)
    ensures FollowsIn(PaymentRun(steps), id, StartedWith(steps, id), Heard(steps, id), Returned(steps, id))
  {
    if steps != [] {
      var init, s := steps[..|steps| - 1], steps[|steps| - 1];
      WorkflowFollows(init, id);
      StepFollows(init, s, id, PaymentRun(init));
      assert init + [s] == steps;
    }
  }

  /** In every run, what a step adds to the replies of an order: the activity's one reply, or the answer to a command that finds the
      workflow completed. Both say the last word, and nothing else is ever sent. */
  lemma RepliesSayTheLastWord(steps: seq<PaymentStep>, s: PaymentStep, id: nat, p: Payments, next: Payments)
    requires p == PaymentRun(steps) && next == PaymentRun(steps + [s])
    ensures var replies := s == EmitReply(id) && id in p.workflows && p.workflows[id].Replying? && id !in p.processed;
            var recovers := s.StartCharge? && s.recovers && s.input.orderId == id && id in p.workflows && p.workflows[id].Completed?;
            && (replies || recovers ==> LastWord(steps, id).Some? && StartedWith(steps, id).Some?)
            && RepliesOf(next, id)
               == RepliesOf(p, id)
                  + if replies then [Reply(id, StartedWith(steps, id).value.tenantId, LastWord(steps, id).value.ok,
                                           StartedWith(steps, id).value.correlationId, false)]
                    else if recovers then [Reply(id, s.input.tenantId, LastWord(steps, id).value.ok, s.input.correlationId, true)]
                    else []
  {
    WorkflowFollows(steps, id);
    RunSnoc(steps, s);
    StepAddsReplies(p, s, id);
  }

  /** When the charge returns, the workflow waits for the provider exactly if the charge is pending and nothing was heard yet;
      otherwise it replies, and so it does when the window closes. */
  lemma WaitsExactlyWhen(steps: seq<PaymentStep>, id: nat, decided: ProviderResult, p: Payments)
    requires p == PaymentRun(steps) && id in p.workflows
    ensures p.workflows[id].Charging? ==>
              var w := PaymentRun(steps + [ChargeReturns(id, decided)]).workflows[id];
              (w.Waiting? <==> decided.pending && Heard(steps, id).None?) && (w.Waiting? || w.Replying?)
    ensures p.workflows[id].Waiting? ==> PaymentRun(steps + [WindowCloses(id)]).workflows[id].Replying?
  {
    WorkflowFollows(steps, id);
    RunSnoc(steps, ChargeReturns(id, decided));
    RunSnoc(steps, WindowCloses(id));
  }

  lemma RunSnoc(steps: seq<PaymentStep>, s: PaymentStep)
    ensures PaymentRun(steps + [s]) == PaymentNext(PaymentRun(steps), s)
  {
    assert (steps + [s])[..|steps|] == steps;
  }

  // A whole charge of an order, from command to close.
  function ChargeThrough(input: ChargeInput, result: ProviderResult): seq<PaymentStep> {
    [StartCharge(input, true), ChargeReturns(input.orderId, result), EmitReply(input.orderId), Finish(input.orderId)]
  }

  lemma ChargedThrough(steps: seq<PaymentStep>, input: ChargeInput, result: ProviderResult, p: Payments, q: Payments)
    requires p == PaymentRun(steps) && q == PaymentRun(steps + ChargeThrough(input, result))
    requires input.orderId !in p.workflows && !result.pending
    ensures q.workflows == p.workflows[input.orderId := Completed(input, result)]
    ensures q.processed == p.processed + {input.orderId}
    ensures q.outbox == p.outbox + if input.orderId in p.processed then [] else [Reply(input.orderId, input.tenantId, result.ok, input.correlationId, false)]
  {
    var s1 := steps + [StartCharge(input, true)];
    var s2 := s1 + [ChargeReturns(input.orderId, result)];
    var s3 := s2 + [EmitReply(input.orderId)];
    RunSnoc(steps, StartCharge(input, true));
    RunSnoc(s1, ChargeReturns(input.orderId, result));
    RunSnoc(s2, EmitReply(input.orderId));
    RunSnoc(s3, Finish(input.orderId));
    assert s3 + [Finish(input.orderId)] == steps + ChargeThrough(input, result);
    FourSteps(p, input, result, PaymentRun(s1), PaymentRun(s2), PaymentRun(s3), q);
  }

  lemma FourSteps(p: Payments, input: ChargeInput, result: ProviderResult, p1: Payments, p2: Payments, p3: Payments, q: Payments)
    requires input.orderId !in p.workflows && !result.pending
    requires p1 == PaymentNext(p, StartCharge(input, true)) && p2 == PaymentNext(p1, ChargeReturns(input.orderId, result))
    requires p3 == PaymentNext(p2, EmitReply(input.orderId)) && q == PaymentNext(p3, Finish(input.orderId))
    ensures q.workflows == p.workflows[input.orderId := Completed(input, result)]
    ensures q.processed == p.processed + {input.orderId}
    ensures q.outbox == p.outbox + if input.orderId in p.processed then [] else [Reply(input.orderId, input.tenantId, result.ok, input.correlationId, false)]
  {
    assert p2.workflows == p.workflows[input.orderId := Replying(input, result)];
  }

  /** And it always can do harm: whatever has happened, once an answered order's workflow is forgotten, a charge command
      that starts it again, decided the other way, and one more command leave the order with contradictory replies. */
  lemma RestartedWorkflowContradictsItself(steps: seq<PaymentStep>, input: ChargeInput) returns (more: seq<PaymentStep>)
    requires Restarts(PaymentRun(steps), StartCharge(input, true), input.orderId)
    ensures more != [] && Restarts(PaymentRun(steps), more[0], input.orderId)
    ensures forall s <- more :: s.StartCharge? ==> s == StartCharge(input, true)
    ensures RepliedBoth(PaymentRun(steps + more), input.orderId)
  {
    var p, id := PaymentRun(steps), input.orderId;
    ReplyCount(steps, id);
    var first := RepliesOf(p, id)[0];
    var other := ProviderResult(!first.ok, false);
    var charged := steps + ChargeThrough(input, other);
    var again := StartCharge(input, true);
    ChargedThrough(steps, input, other, p, PaymentRun(charged));
    RunSnoc(charged, again);
    more := ChargeThrough(input, other) + [again];
    assert steps + more == charged + [again];
    OneMoreReply(p, PaymentRun(charged), id, first, Reply(id, input.tenantId, other.ok, input.correlationId, true), PaymentRun(steps + more));
  }

  ghost predicate RepliedBoth(p: Payments, id: nat) {
    exists yes, no :: yes in RepliesOf(p, id) && no in RepliesOf(p, id) && yes.ok && !no.ok
  }

  lemma OneMoreReply(p: Payments, q: Payments, id: nat, first: Reply, second: Reply, r: Payments)
    requires q.outbox == p.outbox && r.outbox == q.outbox + [second] && second.orderId == id
    requires first in RepliesOf(p, id) && first.ok != second.ok
    ensures RepliedBoth(r, id)
  {
    FilterSnoc(p.outbox, second, ReplyOf(id));
    assert first in RepliesOf(r, id) && second in RepliesOf(r, id);
  }

  /** A closed workflow stays as it is until its retention ends, and retention ends only for closed ones; a running one goes on
      with the input it was started with. */
  lemma ClosedWorkflowsStay(p: Payments, s: PaymentStep, id: nat)
    requires id in p.workflows
    ensures var w, next := p.workflows[id], PaymentNext(p, s);
            && (id !in next.workflows <==> s == Forget(id) && (w.Completed? || w.Failed?))
            && ((w.Completed? || w.Failed?) && s != Forget(id) ==> next.workflows[id] == w)
            && (id in next.workflows ==> next.workflows[id].input == w.input)
            && (id in next.workflows && next.workflows[id].Completed? && !w.Completed? ==> s == Finish(id) && w.Replying? && id in p.processed)
            && (id in next.workflows && next.workflows[id].Failed? && !w.Failed? ==> s == Fail(id))
  {
  }

  // ----- When an order can still be answered -----

  predicate IsFailed(p: Payments, id: nat) {
    id in p.workflows && p.workflows[id].Failed?
  }

  /** A failed workflow is never run again while it is retained, and adds no reply: neither its activity nor the gateway. */
  lemma FailedStays(p: Payments, s: PaymentStep, id: nat)
    requires IsFailed(p, id) && s != Forget(id)
    ensures IsFailed(PaymentNext(p, s), id) && RepliesOf(PaymentNext(p, s), id) == RepliesOf(p, id)
  {
    StepAddsReplies(p, s, id);
    assert RepliesOf(p, id) + [] == RepliesOf(p, id);
  }

  // Commands with this input, and anything else but the end of the workflow's retention.
  ghost predicate Retaining(steps: seq<PaymentStep>, input: ChargeInput) {
    forall s <- steps :: s != Forget(input.orderId) && (s.StartCharge? ==> s == StartCharge(input, true))
  }

  ghost predicate GivesReply(steps: seq<PaymentStep>, more: seq<PaymentStep>, id: nat) {
    |RepliesOf(PaymentRun(steps + more), id)| > |RepliesOf(PaymentRun(steps), id)|
  }

  lemma {:induction false} FailedStaysOn(steps: seq<PaymentStep>, more: seq<PaymentStep>, input: ChargeInput)
    requires IsFailed(PaymentRun(steps), input.orderId) && Retaining(more, input)
    ensures IsFailed(PaymentRun(steps + more), input.orderId) && !GivesReply(steps, more, input.orderId)
  {
    if more == [] {
      assert steps + more == steps;
    } else {
      var init, s := more[..|more| - 1], more[|more| - 1];
      FailedStaysOn(steps, init, input);
      assert s in more;
      assert steps + more == steps + init + [s];
      RunSnoc(steps + init, s);
      FailedStays(PaymentRun(steps + init), s, input.orderId);
    }
  }

  const PAID := ProviderResult(true, false)

  /** A charge repeated until it is answered: whatever the workflow was doing, one of these steps is its next. */
  function Rescue(input: ChargeInput): seq<PaymentStep> {
    [StartCharge(input, true)] + [ChargeReturns(input.orderId, PAID)] + [WindowCloses(input.orderId)] + [EmitReply(input.orderId)]
    + [Finish(input.orderId)] + [StartCharge(input, true)]
  }

  lemma RescueRuns(steps: seq<PaymentStep>, input: ChargeInput, p: Payments)
    requires p == PaymentRun(steps)
    ensures PaymentRun(steps + Rescue(input)) == PaymentNext(Closing(Deciding(p, input), input), StartCharge(input, true))
  {
    var s1 := steps + [StartCharge(input, true)];
    var s2 := s1 + [ChargeReturns(input.orderId, PAID)];
    var s3 := s2 + [WindowCloses(input.orderId)];
    var s4 := s3 + [EmitReply(input.orderId)];
    var s5 := s4 + [Finish(input.orderId)];
    RunSnoc(steps, StartCharge(input, true));
    RunSnoc(s1, ChargeReturns(input.orderId, PAID));
    RunSnoc(s2, WindowCloses(input.orderId));
    RunSnoc(s3, EmitReply(input.orderId));
    RunSnoc(s4, Finish(input.orderId));
    RunSnoc(s5, StartCharge(input, true));
    assert steps + Rescue(input) == s5 + [StartCharge(input, true)];
  }

  // The first three of these steps, and the two after them.
  function Deciding(p: Payments, input: ChargeInput): Payments {
    PaymentNext(PaymentNext(PaymentNext(p, StartCharge(input, true)), ChargeReturns(input.orderId, PAID)), WindowCloses(input.orderId))
  }

  function Closing(p: Payments, input: ChargeInput): Payments {
    PaymentNext(PaymentNext(p, EmitReply(input.orderId)), Finish(input.orderId))
  }

  lemma NoFewerReplies(p: Payments, s: PaymentStep, id: nat)
    ensures |RepliesOf(PaymentNext(p, s), id)| >= |RepliesOf(p, id)|
  {
    StepAddsReplies(p, s, id);
  }

  lemma Decides(p: Payments, input: ChargeInput, q: Payments)
    requires !IsFailed(p, input.orderId) && q == Deciding(p, input)
    ensures input.orderId in q.workflows && (q.workflows[input.orderId].Replying? || q.workflows[input.orderId].Completed?)
    ensures |RepliesOf(q, input.orderId)| >= |RepliesOf(p, input.orderId)|
  {
    var p1 := PaymentNext(p, StartCharge(input, true));
    var p2 := PaymentNext(p1, ChargeReturns(input.orderId, PAID));
    NoFewerReplies(p, StartCharge(input, true), input.orderId);
    NoFewerReplies(p1, ChargeReturns(input.orderId, PAID), input.orderId);
    NoFewerReplies(p2, WindowCloses(input.orderId), input.orderId);
  }

  lemma Closes(p: Payments, input: ChargeInput, q: Payments)
    requires input.orderId in p.workflows && (p.workflows[input.orderId].Replying? || p.workflows[input.orderId].Completed?)
    requires q == Closing(p, input)
    ensures input.orderId in q.workflows && q.workflows[input.orderId].Completed?
    ensures |RepliesOf(q, input.orderId)| >= |RepliesOf(p, input.orderId)|
  {
    var p1 := PaymentNext(p, EmitReply(input.orderId));
    NoFewerReplies(p, EmitReply(input.orderId), input.orderId);
    NoFewerReplies(p1, Finish(input.orderId), input.orderId);
  }

  lemma RescueRetains(input: ChargeInput)
    ensures Retaining(Rescue(input), input)
  {
  }

  lemma OneMoreFromClosed(p: Payments, input: ChargeInput, q: Payments)
    requires input.orderId in p.workflows && p.workflows[input.orderId].Completed? && q == PaymentNext(p, StartCharge(input, true))
    ensures |RepliesOf(q, input.orderId)| > |RepliesOf(p, input.orderId)|
  {
    StepAddsReplies(p, StartCharge(input, true), input.orderId);
  }

  lemma RescueAnswers(steps: seq<PaymentStep>, input: ChargeInput)
    requires !IsFailed(PaymentRun(steps), input.orderId)
    ensures GivesReply(steps, Rescue(input), input.orderId)
  {
    var p := PaymentRun(steps);
    var q := Deciding(p, input);
    var closed := Closing(q, input);
    Decides(p, input, q);
    Closes(q, input, closed);
    RescueRuns(steps, input, p);
    OneMoreFromClosed(closed, input, PaymentRun(steps + Rescue(input)));
  }

  /** After any run, an order can still be told the result of its charge, without its workflow being forgotten, if and only
      if that workflow has not failed: the state the gateway tests. */
  lemma AnswerableExactlyWhen(steps: seq<PaymentStep>, input: ChargeInput)
    ensures (exists more :: Retaining(more, input) && GivesReply(steps, more, input.orderId))
            <==> !IsFailed(PaymentRun(steps), input.orderId)
  {
    if IsFailed(PaymentRun(steps), input.orderId) {
      forall more | Retaining(more, input) ensures !GivesReply(steps, more, input.orderId) {
        FailedStaysOn(steps, more, input);
      }
    } else {
      RescueRetains(input);
      RescueAnswers(steps, input);
    }
  }
}
