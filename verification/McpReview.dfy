/** The review of one managed tool operation: a durable record rewritten phase by phase by
    decisions, input rounds, delegated child reviews and expiry, and the invocations that
    may dispatch the tool under it. */
module McpReview {
  import opened Options

  type Id = nat
  type Time = int

  // ---------- The durable record ----------

  datatype Action = Action(attachment: string, tool: string, arguments: string, subject: Option<string>)

  datatype Native = Native(thread: string, turn: string, call: string, request: Option<string>)

  /** What stays the same for the whole operation. */
  datatype Binding = Binding(
    turn: string, workId: Option<string>, native: Native, id: Id, action: Action, hash: string, expiresAt: Time)

  datatype Delegated = Delegated(key: string, subject: string)

  /** What the tool asked for; `cancelOnExpiry` is the server's cancellation hint. */
  datatype Pending = Pending(
    keys: set<string>, state: Option<string>, deadline: Option<Time>, cancelOnExpiry: bool, delegated: Option<Delegated>)

  datatype Kind = Accepted | Refused | Cancelled

  datatype Content = Form(fields: string) | Child(request: Id, action: Action)

  datatype Answer = Answer(kind: Kind, content: Option<Content>)

  datatype Reply = Reply(pending: Pending, responses: map<string, Answer>)

  datatype Round = Round(input: Id, number: nat, reviewActor: Option<string>)

  datatype Decision = Accept | Decline | OtherDecision

  datatype Outcome =
    | Waiting
    | Dispatching(actor: string)
    | Declined(actor: string)
    | InputWaiting(round: Round, pending: Pending)
    | InputResuming(round: Round, reply: Reply, actor: string)
    | ReviewWaiting(round: Round, child: Action, childHash: string, pending: Pending)
    | ReviewResuming(round: Round, child: Action, childHash: string, reply: Reply, actor: string, decision: Decision)
    | ExpiryResuming(round: Round, reply: Reply)
    | ExpiryCompleted(result: string)
    | Completed(actor: string, result: string)

  datatype Review = Review(binding: Binding, outcome: Outcome)

  predicate HasRound(o: Outcome) { o.InputWaiting? || o.InputResuming? || o.ReviewWaiting? || o.ReviewResuming? || o.ExpiryResuming? }

  predicate HasReply(o: Outcome) { o.InputResuming? || o.ReviewResuming? || o.ExpiryResuming? }

  predicate AsksForInput(o: Outcome) { o.InputWaiting? || o.ReviewWaiting? }

  predicate IsResuming(o: Outcome) { o.InputResuming? || o.ReviewResuming? }

  predicate IsTerminal(o: Outcome) { o.Completed? || o.ExpiryCompleted? || o.Declined? }

  const MAX_ROUNDS := 9

  // ---------- What the store lets through ----------

  function Earlier(a: Time, b: Time): Time { if a < b then a else b }

  function InputExpiry(pending: Pending, expiresAt: Time): Time {
    if pending.deadline.Some? then Earlier(pending.deadline.value, expiresAt) else expiresAt
  }

  /** The answer a child review's decision stands for. */
  function ChildResponses(key: string, decision: Decision, request: Id, action: Action): map<string, Answer> {
    map[key := if decision.Accept? then Answer(Accepted, Some(Child(request, action))) else Answer(Refused, None)]
  }

  function CancelAll(keys: set<string>): map<string, Answer> { map key | key in keys :: Answer(Cancelled, None) }

  predicate DelegationOk(digest: Action -> string, action: Action, o: Outcome) {
    (o.ReviewWaiting? || o.ReviewResuming?) ==>
      var pending := if o.ReviewWaiting? then o.pending else o.reply.pending;
      && pending.delegated.Some? && action.subject.None?
      && o.child == action.(subject := Some(pending.delegated.value.subject))
      && o.childHash == digest(o.child)
      && pending.keys == {pending.delegated.value.key}
      && (o.ReviewResuming? ==>
            !o.decision.OtherDecision?
            && o.reply.responses == ChildResponses(pending.delegated.value.key, o.decision, o.round.input, o.child))
  }

  predicate IsInitial(o: Outcome) {
    o.Waiting? || (AsksForInput(o) && o.round.number == 1 && o.round.reviewActor.None?)
  }

  predicate Advances(binding: Binding, was: Outcome, o: Outcome, event: bool, now: Time) {
    match was
    case Waiting => (o.Dispatching? || o.Declined?) && event
    case Dispatching(actor) =>
      || (o.Completed? && o.actor == actor && !event)
      || (AsksForInput(o) && o.round.number == 1 && o.round.reviewActor == Some(actor) && event)
    case InputWaiting(round, pending) =>
      || (o.InputResuming? && o.round == round && o.reply.pending == pending && event)
      || (o.ExpiryResuming? && ExpiresInto(binding, round, pending, o, event, now))
    case ReviewWaiting(round, child, childHash, pending) =>
      || (o.ReviewResuming? && o.round == round && o.reply.pending == pending && o.child == child && o.childHash == childHash && event)
      || (o.ExpiryResuming? && ExpiresInto(binding, round, pending, o, event, now))
    case ExpiryResuming(_, _) => o.ExpiryCompleted? && !event
    case InputResuming(round, _, actor) => ResumesInto(round, actor, o, event)
    case ReviewResuming(round, _, _, _, actor, _) => ResumesInto(round, actor, o, event)
    case _ => false
  }

  predicate ExpiresInto(binding: Binding, round: Round, pending: Pending, o: Outcome, event: bool, now: Time)
    requires o.ExpiryResuming?
  {
    && !event && pending.cancelOnExpiry && InputExpiry(pending, binding.expiresAt) <= now < binding.expiresAt
    && o.round == round && o.reply == Reply(pending, CancelAll(pending.keys))
  }

  predicate ResumesInto(round: Round, actor: string, o: Outcome, event: bool) {
    || (o.Completed? && o.actor == actor && !event)
    || (AsksForInput(o) && o.round.number == round.number + 1 && o.round.input != round.input
        && o.round.reviewActor == round.reviewActor && event)
  }

  predicate SchemaOk(o: Outcome) {
    && (HasRound(o) ==> 1 <= o.round.number <= MAX_ROUNDS)
    && (HasReply(o) ==> o.reply.responses.Keys == o.reply.pending.keys)
  }

  predicate SaveAllowed(digest: Action -> string, previous: Option<Review>, next: Review, event: bool, now: Time) {
    && SchemaOk(next.outcome) && next.binding.hash == digest(next.binding.action)
    && DelegationOk(digest, next.binding.action, next.outcome)
    && match previous
       case None => IsInitial(next.outcome) && event
       case Some(p) =>
         && p.binding == next.binding
         && ((p.outcome == next.outcome && !event) || Advances(p.binding, p.outcome, next.outcome, event, now))
  }

  /** The session's entry, and every change it has gone through. */
  datatype Store = Store(record: Option<Review>, log: seq<Review>)

  function Saved(store: Store, next: Review): Store {
    Store(Some(next), if store.record == Some(next) then store.log else store.log + [next])
  }

  /** `works` is false when the state file cannot be written; the change is then undone. */
  predicate SaveSucceeds(digest: Action -> string, store: Store, next: Review, event: bool, now: Time, works: bool) {
    works && SaveAllowed(digest, store.record, next, event, now)
  }

  function Save(digest: Action -> string, store: Store, next: Review, event: bool, now: Time, works: bool): Store {
    if SaveSucceeds(digest, store, next, event, now, works) then Saved(store, next) else store
  }

  // ---------- The owner and its suspended invocations ----------

  datatype Owner = Owner(session: string, turn: string, workId: Option<string>, digest: Action -> string)

  datatype Request = Request(native: Native, attachment: string, tool: string, arguments: string)

  datatype Grant = Grant(id: Id, action: Action)

  datatype Stage = Calling | Awaiting(asked: Review) | Resumed

  datatype Invocation = Invocation(
    request: Request, grant: Option<Grant>, reply: Option<Reply>, retained: Option<Review>, stage: Stage)

  /** A call of the tool, with the record found and the number of changes before it. */
  datatype Dispatch = Dispatch(request: Request, grant: Option<Grant>, reply: Option<Reply>, retained: Option<Review>, at: nat)

  datatype System = System(
    store: Store, nextId: Id, now: Time, waiting: Option<Id>, inputWaiting: Option<(Id, nat)>,
    invocations: map<nat, Invocation>, dispatches: seq<Dispatch>, granted: seq<Grant>)

  const START := System(Store(None, []), 0, 0, None, None, map[], [], [])

  function RootAction(request: Request): Action { Action(request.attachment, request.tool, request.arguments, None) }

  function OperationExpiry(r: Review): Time {
    if AsksForInput(r.outcome) then InputExpiry(r.outcome.pending, r.binding.expiresAt)
    else if IsResuming(r.outcome) then InputExpiry(r.outcome.reply.pending, r.binding.expiresAt)
    else r.binding.expiresAt
  }

  predicate PlatformReleases(r: Review) {
    (r.outcome.ReviewWaiting? && r.outcome.pending.cancelOnExpiry)
    || (r.outcome.ReviewResuming? && r.outcome.reply.pending.cancelOnExpiry)
  }

  function DeclineExpiry(r: Review): Time { if PlatformReleases(r) then r.binding.expiresAt else OperationExpiry(r) }

  const LEASE := 300000

  /** A new operation, provided the lease lives and the previous operation has ended. */
  function NewOperation(o: Owner, store: Store, now: Time, id: Id, request: Request, outcome: Outcome, lease: Option<Time>): Option<Review> {
    if lease.None? || lease.value <= now then None
    else if store.record.Some? && !IsTerminal(store.record.value.outcome) then None
    else
      var action := RootAction(request);
      Some(Review(Binding(o.turn, o.workId, request.native, id, action, o.digest(action), Earlier(lease.value, now + LEASE)), outcome))
  }

  function Cleared(store: Store): Store { store.(record := None) }

  function AskApprovalStep(o: Owner, s: System, request: Request, lease: Option<Time>, works: bool, published: bool): System {
    match NewOperation(o, s.store, s.now, s.nextId, request, Waiting, lease)
    case None => s
    case Some(review) =>
      var cleared := Cleared(s.store);
      var next := s.(store := Save(o.digest, cleared, review, true, s.now, works), nextId := s.nextId + 1);
      if SaveSucceeds(o.digest, cleared, review, true, s.now, works) then
        next.(waiting := if published then Some(s.nextId) else None)
      else next
  }

  datatype Approval = Approval(
    session: string, turn: string, request: Id, hash: string, decision: Decision, actor: string, feedback: bool)

  predicate ChildDecisionOk(o: Owner, r: Review, a: Approval, now: Time)
    requires r.outcome.ReviewWaiting? || r.outcome.ReviewResuming?
  {
    && a.session == o.session && a.turn == o.turn && a.request == r.outcome.round.input && a.hash == r.outcome.childHash
    && !a.decision.OtherDecision? && (if a.decision.Decline? then DeclineExpiry(r) else OperationExpiry(r)) > now
    && (r.outcome.ReviewResuming? ==> a.decision == r.outcome.decision && a.actor == r.outcome.actor)
  }

  predicate RootDecisionOk(o: Owner, r: Review, a: Approval, now: Time) {
    && a.session == o.session && a.turn == o.turn && a.request == r.binding.id && a.hash == r.binding.hash
    && !a.decision.OtherDecision? && r.binding.expiresAt > now
    && (r.outcome.Waiting? || (AlreadyDecided(r.outcome, a.decision) && r.outcome.actor == a.actor))
  }

  predicate AlreadyDecided(o: Outcome, decision: Decision) {
    (decision.Accept? && (o.Dispatching? || o.Completed?)) || (decision.Decline? && o.Declined?)
  }

  /** The record a decision addresses, when it may be given or repeated. */
  function Addressed(o: Owner, store: Store, a: Approval, now: Time): Option<Review> {
    if a.feedback || store.record.None? then None
    else
      var r := store.record.value;
      if r.binding.workId != o.workId then None
      else if r.outcome.ReviewWaiting? || r.outcome.ReviewResuming? then
        if ChildDecisionOk(o, r, a, now) then Some(r) else None
      else if RootDecisionOk(o, r, a, now) then Some(r)
      else None
  }

  function Decided(r: Review, a: Approval): Review
    requires r.outcome.Waiting?
  {
    r.(outcome := if a.decision.Accept? then Dispatching(a.actor) else Declined(a.actor))
  }

  function ChildDecided(r: Review, a: Approval): Review
    requires r.outcome.ReviewWaiting? && r.outcome.pending.delegated.Some?
  {
    var w := r.outcome;
    var reply := Reply(w.pending, ChildResponses(w.pending.delegated.value.key, a.decision, w.round.input, w.child));
    r.(outcome := ReviewResuming(w.round, w.child, w.childHash, reply, a.actor, a.decision))
  }

  /** The invocation waiting for input goes on with the reply. */
  function Resolved(s: System, input: Id, reply: Reply): System {
    if s.inputWaiting.None? || s.inputWaiting.value.0 != input then s
    else
      var slot := s.inputWaiting.value.1;
      s.(inputWaiting := None,
         invocations := if slot in s.invocations then
                          s.invocations[slot := s.invocations[slot].(reply := Some(reply), stage := Resumed)]
                        else s.invocations)
  }

  /** What the sender of a decision or an answer is told: it was stored now, it had been
      stored before, or it is refused. */
  datatype Reception = Taken | Repeated | Rejected

  function DecideStep(o: Owner, s: System, a: Approval, works: bool): (System, Reception) {
    match Addressed(o, s.store, a, s.now)
    case None => (s, Rejected)
    case Some(r) =>
      if r.outcome.ReviewWaiting? then ChildDecideStep(o, s, r, a, works)
      else if !r.outcome.Waiting? then (s, Repeated)
      else
        var next := Decided(r, a);
        if !SaveSucceeds(o.digest, s.store, next, true, s.now, works) then (s, Rejected)
        else
          var saved := s.(store := Saved(s.store, next));
          if s.waiting != Some(r.binding.id) then (saved, Taken)
          else
            (saved.(waiting := None,
                    granted := if a.decision.Accept? then s.granted + [Grant(r.binding.id, r.binding.action)] else s.granted),
             Taken)
  }

  function ChildDecideStep(o: Owner, s: System, r: Review, a: Approval, works: bool): (System, Reception)
    requires r.outcome.ReviewWaiting?
  {
    if r.outcome.pending.delegated.None? then (s, Rejected)
    else
      var next := ChildDecided(r, a);
      if !SaveSucceeds(o.digest, s.store, next, true, s.now, works) then (s, Rejected)
      else (Resolved(s.(store := Saved(s.store, next)), r.outcome.round.input, next.outcome.reply), Taken)
  }

  datatype InputResponse = InputResponse(
    session: string, turn: string, request: Id, cancelled: bool, value: Option<map<string, Answer>>, wellTyped: bool, actor: string)

  function InputReply(o: Owner, store: Store, a: InputResponse, now: Time): Option<(Review, Reply)> {
    if store.record.None? then None
    else
      var r := store.record.value;
      if r.binding.workId != o.workId || a.session != o.session || a.turn != o.turn || OperationExpiry(r) <= now
         || !(r.outcome.InputWaiting? || r.outcome.InputResuming?) || r.outcome.round.input != a.request
      then None
      else if a.cancelled && a.value.Some? then None
      else
        var pending := if r.outcome.InputWaiting? then r.outcome.pending else r.outcome.reply.pending;
        if !a.cancelled && a.value.None? then None
        else
          var reply := Reply(pending, if a.cancelled then CancelAll(pending.keys) else a.value.value);
          if reply.responses.Keys != pending.keys || !a.wellTyped then None else Some((r, reply))
  }

  function RespondStep(o: Owner, s: System, a: InputResponse, works: bool): (System, Reception) {
    match InputReply(o, s.store, a, s.now)
    case None => (s, Rejected)
    case Some((r, reply)) =>
      if r.outcome.InputResuming? then
        (s, if r.outcome.actor == a.actor && r.outcome.reply == reply then Repeated else Rejected)
      else
        var next := r.(outcome := InputResuming(r.outcome.round, reply, a.actor));
        if !SaveSucceeds(o.digest, s.store, next, true, s.now, works) then (s, Rejected)
        else (Resolved(s.(store := Saved(s.store, next)), a.request, reply), Taken)
  }

  function CompleteStep(o: Owner, s: System, grant: Grant, result: string, works: bool): System {
    if s.store.record.None? then s
    else
      var r := s.store.record.value;
      if r.binding.workId != o.workId || r.binding.id != grant.id || r.binding.action != grant.action || !r.outcome.Dispatching? then s
      else s.(store := Save(o.digest, s.store, r.(outcome := Completed(r.outcome.actor, result)), false, s.now, works))
  }

  // ---------- The invocation loop ----------

  predicate SameCall(r: Review, request: Request) {
    r.binding.native.call == request.native.call && r.binding.native.turn == request.native.turn
  }

  predicate ContinuationOk(o: Owner, r: Review, request: Request, grant: Option<Grant>, reply: Option<Reply>, now: Time) {
    && r.binding.workId == o.workId && r.binding.native == request.native && r.binding.action == RootAction(request)
    && (if r.outcome.ReviewResuming? && r.outcome.decision.Decline? then DeclineExpiry(r) else OperationExpiry(r)) > now
    && (grant.Some? ==> r.binding.id == grant.value.id && r.binding.action == grant.value.action)
    && (reply.None? ==> r.outcome.Dispatching?)
    && (reply.Some? ==> HasReply(r.outcome) && r.outcome.reply == reply.value
                        && (r.outcome.round.reviewActor.Some? <==> grant.Some?))
  }

  predicate MayDispatch(o: Owner, store: Store, request: Request, grant: Option<Grant>, reply: Option<Reply>, now: Time) {
    if reply.None? && grant.None? then store.record.Some? ==> !SameCall(store.record.value, request)
    else store.record.Some? && ContinuationOk(o, store.record.value, request, grant, reply, now)
  }

  /** The top of the loop: check the record, then call the tool. */
  function LoopTop(o: Owner, s: System, slot: nat, request: Request, grant: Option<Grant>, reply: Option<Reply>): System {
    if !MayDispatch(o, s.store, request, grant, reply, s.now) then s.(invocations := s.invocations - {slot})
    else
      s.(invocations := s.invocations[slot := Invocation(request, grant, reply, s.store.record, Calling)],
         dispatches := s.dispatches + [Dispatch(request, grant, reply, s.store.record, |s.store.log|)])
  }

  predicate IsCalling(s: System, slot: nat) { slot in s.invocations && s.invocations[slot].stage.Calling? }

  function ToolReturnedStep(o: Owner, s: System, slot: nat, result: string, works: bool): System {
    if !IsCalling(s, slot) then s
    else
      var i := s.invocations[slot];
      var left := s.(invocations := s.invocations - {slot});
      if i.retained.None? || (i.reply.None? && i.grant.None?) then left
      else
        var r := i.retained.value;
        if r.outcome.ExpiryResuming? then
          left.(store := Save(o.digest, s.store, r.(outcome := ExpiryCompleted(result)), false, s.now, works))
        else if r.outcome.Dispatching? || IsResuming(r.outcome) then
          left.(store := Save(o.digest, s.store, r.(outcome := Completed(r.outcome.actor, result)), false, s.now, works))
        else left
  }

  predicate DelegationAsks(pending: Pending) { pending.delegated.Some? ==> pending.keys == {pending.delegated.value.key} }

  function PriorRound(previous: Option<Review>, request: Request): Option<Outcome> {
    if previous.Some? && SameCall(previous.value, request) then Some(previous.value.outcome) else None
  }

  /** The next round of the call, under the actor who accepted the operation if someone did. */
  function NextRound(prior: Option<Outcome>, input: Id): Round {
    if prior.Some? && prior.value.Dispatching? then Round(input, 1, Some(prior.value.actor))
    else if prior.Some? && IsResuming(prior.value) then Round(input, prior.value.round.number + 1, prior.value.round.reviewActor)
    else Round(input, 1, None)
  }

  function InputOutcome(o: Owner, request: Request, pending: Pending, round: Round): Outcome {
    match pending.delegated
    case None => InputWaiting(round, pending)
    case Some(delegated) =>
      var child := RootAction(request).(subject := Some(delegated.subject));
      ReviewWaiting(round, child, o.digest(child), pending)
  }

  /** The record the wait stores, and the store it is saved over. */
  function AskedReview(o: Owner, store: Store, now: Time, input: Id, request: Request, pending: Pending, lease: Option<Time>):
    Option<(Store, Review)>
  {
    var outcome := InputOutcome(o, request, pending, NextRound(PriorRound(store.record, request), input));
    if store.record.Some? && SameCall(store.record.value, request) then Some((store, store.record.value.(outcome := outcome)))
    else
      match NewOperation(o, store, now, input + 1, request, outcome, lease)
      case None => None
      case Some(review) => Some((Cleared(store), review))
  }

  function NeedsInputStep(o: Owner, s: System, slot: nat, pending: Pending, supported: bool, lease: Option<Time>,
                          works: bool, published: bool): System {
    if !IsCalling(s, slot) then s
    else
      var i := s.invocations[slot];
      var left := s.(invocations := s.invocations - {slot}, nextId := s.nextId + 2);
      if i.retained.Some? && i.retained.value.outcome.ExpiryResuming? then left
      else if !supported || !DelegationAsks(pending) then left
      else
        match AskedReview(o, s.store, s.now, s.nextId, i.request, pending, lease)
        case None => left
        case Some((over, review)) => AwaitStep(o, left.(store := over), slot, i, review, s.nextId, works, published)
  }

  /** Stores the request for input and, once it is published, waits for the reply. */
  function AwaitStep(o: Owner, s: System, slot: nat, i: Invocation, review: Review, input: Id, works: bool, published: bool): System {
    if !SaveSucceeds(o.digest, s.store, review, true, s.now, works) then s
    else if !published then s.(store := Saved(s.store, review), inputWaiting := None)
    else
      s.(store := Saved(s.store, review), inputWaiting := Some((input, slot)),
         invocations := s.invocations[slot := i.(stage := Awaiting(review))])
  }

  /** The timer of a wait. */
  function ExpireStep(o: Owner, s: System, slot: nat, works: bool): System {
    if slot !in s.invocations || !s.invocations[slot].stage.Awaiting? || !AsksForInput(s.invocations[slot].stage.asked.outcome) then s
    else
      var asked := s.invocations[slot].stage.asked;
      var waitUntil := if PlatformReleases(asked) then asked.binding.expiresAt else OperationExpiry(asked);
      var left := s.(inputWaiting := None, invocations := s.invocations - {slot});
      if waitUntil > s.now then s
      else if PlatformReleases(asked) || !asked.outcome.pending.cancelOnExpiry || asked.binding.expiresAt <= s.now then left
      else CancelStep(o, left, slot, s.invocations[slot], works)
  }

  /** Cancels every input the wait was for. */
  function CancelStep(o: Owner, s: System, slot: nat, i: Invocation, works: bool): System
    requires i.stage.Awaiting? && AsksForInput(i.stage.asked.outcome)
  {
    var asked := i.stage.asked;
    var reply := Reply(asked.outcome.pending, CancelAll(asked.outcome.pending.keys));
    var next := asked.(outcome := ExpiryResuming(asked.outcome.round, reply));
    if !SaveSucceeds(o.digest, s.store, next, false, s.now, works) then s
    else s.(store := Saved(s.store, next), invocations := s.invocations[slot := i.(reply := Some(reply), stage := Resumed)])
  }

  // ---------- Runs ----------

  datatype Step =
    | DoAskApproval(request: Request, lease: Option<Time>, works: bool, published: bool)
    | DoDecide(approval: Approval, works: bool)
    | DoRespond(response: InputResponse, works: bool)
    | DoComplete(grant: Grant, result: string, works: bool)
    | DoInvoke(slot: nat, request: Request, permit: Option<Grant>, reply: Option<Reply>)
    | DoContinue(slot: nat)
    | DoToolReturned(slot: nat, result: string, works: bool)
    | DoToolNeedsInput(slot: nat, pending: Pending, supported: bool, lease: Option<Time>, works: bool, published: bool)
    | DoExpire(slot: nat, works: bool)
    | DoAbort(slot: nat)
    | DoInterruptApproval
    | DoTick(now: Time)
    | DoForget
    | DoRestart

  function Next(o: Owner, s: System, a: Step): System {
    match a
    case DoAskApproval(request, lease, works, published) => AskApprovalStep(o, s, request, lease, works, published)
    case DoDecide(approval, works) => DecideStep(o, s, approval, works).0
    case DoRespond(response, works) => RespondStep(o, s, response, works).0
    case DoComplete(grant, result, works) => CompleteStep(o, s, grant, result, works)
    case DoInvoke(slot, request, permit, reply) => if slot in s.invocations then s else LoopTop(o, s, slot, request, permit, reply)
    case DoContinue(slot) =>
      if slot in s.invocations && s.invocations[slot].stage.Resumed? then
        LoopTop(o, s, slot, s.invocations[slot].request, s.invocations[slot].grant, s.invocations[slot].reply)
      else s
    case DoToolReturned(slot, result, works) => ToolReturnedStep(o, s, slot, result, works)
    case DoToolNeedsInput(slot, pending, supported, lease, works, published) =>
      NeedsInputStep(o, s, slot, pending, supported, lease, works, published)
    case DoExpire(slot, works) => ExpireStep(o, s, slot, works)
    case DoAbort(slot) =>
      if slot in s.invocations && s.invocations[slot].stage.Awaiting? then
        s.(invocations := s.invocations - {slot}, inputWaiting := None)
      else s.(invocations := s.invocations - {slot})
    case DoInterruptApproval => s.(waiting := None)
    case DoTick(now) => if now >= s.now then s.(now := now) else s
    case DoForget => s.(store := Cleared(s.store))
    case DoRestart => s.(waiting := None, inputWaiting := None, invocations := map[])
  }

  function Run(o: Owner, s: System, steps: seq<Step>): System
    decreases |steps|
  {
    if steps == [] then s else Next(o, Run(o, s, steps[..|steps| - 1]), steps[|steps| - 1])
  }

  // ---------- What every run keeps ----------

  /** The edges between the phases of one operation. */
  predicate Follows(p: Review, n: Review) {
    && p.binding == n.binding
    && match p.outcome
       case Waiting => n.outcome.Dispatching? || n.outcome.Declined?
       case Dispatching(actor) =>
         || (n.outcome.Completed? && n.outcome.actor == actor)
         || (AsksForInput(n.outcome) && n.outcome.round.number == 1 && n.outcome.round.reviewActor == Some(actor))
       case InputWaiting(round, pending) =>
         || (n.outcome.InputResuming? && n.outcome.round == round && n.outcome.reply.pending == pending)
         || (pending.cancelOnExpiry && n.outcome == ExpiryResuming(round, Reply(pending, CancelAll(pending.keys))))
       case ReviewWaiting(round, child, childHash, pending) =>
         || (n.outcome.ReviewResuming? && n.outcome.round == round && n.outcome.reply.pending == pending
             && n.outcome.child == child && n.outcome.childHash == childHash)
         || (pending.cancelOnExpiry && n.outcome == ExpiryResuming(round, Reply(pending, CancelAll(pending.keys))))
       case ExpiryResuming(_, _) => n.outcome.ExpiryCompleted?
       case InputResuming(round, _, actor) => Continues(round, actor, n.outcome)
       case ReviewResuming(round, _, _, _, actor, _) => Continues(round, actor, n.outcome)
       case _ => false
  }

  predicate Continues(round: Round, actor: string, o: Outcome) {
    || (o.Completed? && o.actor == actor)
    || (AsksForInput(o) && o.round.number == round.number + 1 && o.round.reviewActor == round.reviewActor)
  }

  predicate WellKept(digest: Action -> string, r: Review) {
    SchemaOk(r.outcome) && r.binding.hash == digest(r.binding.action) && DelegationOk(digest, r.binding.action, r.outcome)
  }

  ghost predicate Starts(log: seq<Review>, i: nat)
    requires i < |log|
  {
    IsInitial(log[i].outcome) && forall j | 0 <= j < i :: log[j].binding.id < log[i].binding.id
  }

  /** The log is a succession of operations, each a path through the phases. */
  ghost predicate Chain(digest: Action -> string, log: seq<Review>) {
    && (forall i | 0 <= i < |log| :: WellKept(digest, log[i]))
    && (forall i | 0 <= i < |log| :: Starts(log, i) || (i > 0 && Follows(log[i - 1], log[i])))
  }

  ghost predicate StoreOk(digest: Action -> string, store: Store, nextId: Id) {
    && Chain(digest, store.log)
    && (store.record.Some? ==> store.log != [] && store.log[|store.log| - 1] == store.record.value)
    && (forall i | 0 <= i < |store.log| :: store.log[i].binding.id < nextId)
  }

  lemma {:induction false} ChainExtends(digest: Action -> string, log: seq<Review>, n: Review)
    requires Chain(digest, log) && WellKept(digest, n)
    requires (log != [] && Follows(log[|log| - 1], n))
             || (IsInitial(n.outcome) && forall j | 0 <= j < |log| :: log[j].binding.id < n.binding.id)
    ensures Chain(digest, log + [n])
  {
    var all := log + [n];
    forall i | 0 <= i < |all| ensures Starts(all, i) || (i > 0 && Follows(all[i - 1], all[i])) {
      if i < |log| && Starts(log, i) {
        assert Starts(all, i);
      } else if i < |log| {
        assert Follows(log[i - 1], log[i]);
      } else if !(log != [] && Follows(log[|log| - 1], n)) {
        assert Starts(all, i);
      }
    }
  }

  lemma AdvancesFollows(p: Review, n: Review, event: bool, now: Time)
    requires p.binding == n.binding && Advances(p.binding, p.outcome, n.outcome, event, now)
    ensures Follows(p, n)
  {}

  /** A save either keeps the operation on its path or starts one under a new id. */
  lemma SaveKeepsStore(digest: Action -> string, store: Store, next: Review, event: bool, now: Time, works: bool, nextId: Id)
    requires StoreOk(digest, store, nextId)
    requires store.record.Some? || !IsInitial(next.outcome)
    ensures StoreOk(digest, Save(digest, store, next, event, now, works), nextId)
    ensures store.log <= Save(digest, store, next, event, now, works).log
  {
    if SaveSucceeds(digest, store, next, event, now, works) && store.record != Some(next) {
      AdvancesFollows(store.record.value, next, event, now);
      ChainExtends(digest, store.log, next);
    }
  }

  lemma StartKeepsStore(digest: Action -> string, store: Store, next: Review, now: Time, works: bool, nextId: Id, later: Id)
    requires StoreOk(digest, store, nextId) && store.record.None? && nextId <= next.binding.id < later
    ensures StoreOk(digest, Save(digest, store, next, true, now, works), later)
    ensures store.log <= Save(digest, store, next, true, now, works).log
  {
    if SaveSucceeds(digest, store, next, true, now, works) {
      ChainExtends(digest, store.log, next);
    }
  }

  /** A dispatch that carries a grant or a reply was checked against the record of its time. */
  predicate DispatchOk(o: Owner, log: seq<Review>, d: Dispatch) {
    && d.at <= |log|
    && (d.grant.Some? || d.reply.Some? ==>
          && 0 < d.at && d.retained == Some(log[d.at - 1])
          && d.retained.value.binding.action == RootAction(d.request) && d.retained.value.binding.native == d.request.native
          && (d.grant.Some? ==> d.grant.value == Grant(log[d.at - 1].binding.id, log[d.at - 1].binding.action))
          && (d.reply.None? ==> log[d.at - 1].outcome.Dispatching?)
          && (d.reply.Some? ==> HasReply(log[d.at - 1].outcome) && log[d.at - 1].outcome.reply == d.reply.value
                                && (log[d.at - 1].outcome.round.reviewActor.Some? <==> d.grant.Some?)))
  }

  ghost predicate DispatchesOk(o: Owner, log: seq<Review>, dispatches: seq<Dispatch>) {
    forall i | 0 <= i < |dispatches| :: DispatchOk(o, log, dispatches[i])
  }

  predicate Records(log: seq<Review>, i: nat, grant: Grant) {
    i < |log| && log[i].outcome.Dispatching? && log[i].binding.id == grant.id && log[i].binding.action == grant.action
  }

  ghost predicate IsRecorded(log: seq<Review>, grant: Grant) { exists i: nat :: Records(log, i, grant) }

  ghost predicate GrantsOk(log: seq<Review>, granted: seq<Grant>) {
    forall i | 0 <= i < |granted| :: IsRecorded(log, granted[i])
  }

  ghost predicate Inv(o: Owner, s: System) {
    StoreOk(o.digest, s.store, s.nextId) && DispatchesOk(o, s.store.log, s.dispatches) && GrantsOk(s.store.log, s.granted)
  }

  /** Everything but the loop top leaves the dispatches alone and extends the log. */
  ghost predicate Moves(o: Owner, s: System, after: System) {
    StoreOk(o.digest, after.store, after.nextId) && s.store.log <= after.store.log && after.dispatches == s.dispatches
  }

  lemma MovesKeepInv(o: Owner, s: System, after: System)
    requires Inv(o, s) && Moves(o, s, after) && after.granted == s.granted
    ensures Inv(o, after)
  {
    DispatchesExtend(o, s.store.log, after.store.log, s.dispatches);
    GrantsExtend(s.store.log, after.store.log, s.granted);
  }

  lemma DispatchesExtend(o: Owner, log: seq<Review>, longer: seq<Review>, dispatches: seq<Dispatch>)
    requires log <= longer && DispatchesOk(o, log, dispatches)
    ensures DispatchesOk(o, longer, dispatches)
  {
    forall i | 0 <= i < |dispatches| ensures DispatchOk(o, longer, dispatches[i]) {
      assert DispatchOk(o, log, dispatches[i]);
    }
  }

  lemma GrantsExtend(log: seq<Review>, longer: seq<Review>, granted: seq<Grant>)
    requires log <= longer && GrantsOk(log, granted)
    ensures GrantsOk(longer, granted)
  {
    forall i | 0 <= i < |granted| ensures IsRecorded(longer, granted[i]) {
      assert IsRecorded(log, granted[i]);
      var j: nat :| Records(log, j, granted[i]);
      assert Records(longer, j, granted[i]);
    }
  }

  lemma LoopTopKeepsInv(o: Owner, s: System, slot: nat, request: Request, grant: Option<Grant>, reply: Option<Reply>)
    requires Inv(o, s)
    ensures Inv(o, LoopTop(o, s, slot, request, grant, reply))
  {
    if MayDispatch(o, s.store, request, grant, reply, s.now) {
      assert DispatchOk(o, s.store.log, Dispatch(request, grant, reply, s.store.record, |s.store.log|));
    }
  }

  lemma ClearedKeepsStore(digest: Action -> string, store: Store, nextId: Id, later: Id)
    requires StoreOk(digest, store, nextId) && nextId <= later
    ensures StoreOk(digest, Cleared(store), later)
  {}

  lemma AskApprovalMoves(o: Owner, s: System, request: Request, lease: Option<Time>, works: bool, published: bool)
    requires Inv(o, s)
    ensures Moves(o, s, AskApprovalStep(o, s, request, lease, works, published))
  {
    var asked := NewOperation(o, s.store, s.now, s.nextId, request, Waiting, lease);
    if asked.Some? {
      hide StoreOk, SaveSucceeds, Save;
      ClearedKeepsStore(o.digest, s.store, s.nextId, s.nextId);
      StartKeepsStore(o.digest, Cleared(s.store), asked.value, s.now, works, s.nextId, s.nextId + 1);
    }
  }

  lemma SavedIsSave(digest: Action -> string, store: Store, next: Review, event: bool, now: Time, works: bool)
    ensures SaveSucceeds(digest, store, next, event, now, works) ==> Save(digest, store, next, event, now, works) == Saved(store, next)
    ensures !SaveSucceeds(digest, store, next, event, now, works) ==> Save(digest, store, next, event, now, works) == store
  {}

  lemma ToolNeedsInputMoves(o: Owner, s: System, slot: nat, pending: Pending, supported: bool, lease: Option<Time>, works: bool, published: bool)
    requires Inv(o, s)
    ensures Moves(o, s, NeedsInputStep(o, s, slot, pending, supported, lease, works, published))
  {
    hide StoreOk, SaveSucceeds, Save, Saved, Cleared;
    ClearedKeepsStore(o.digest, s.store, s.nextId, s.nextId);
    AskedKeepsStore(o, s, slot, pending, lease, works);
  }

  lemma AskedKeepsStore(o: Owner, s: System, slot: nat, pending: Pending, lease: Option<Time>, works: bool)
    requires StoreOk(o.digest, s.store, s.nextId)
    ensures StoreOk(o.digest, s.store, s.nextId + 2)
    ensures slot in s.invocations ==>
              var asked := AskedReview(o, s.store, s.now, s.nextId, s.invocations[slot].request, pending, lease);
              asked.Some? ==>
                var (over, review) := asked.value;
                && StoreOk(o.digest, over, s.nextId + 2) && over.log == s.store.log
                && (SaveSucceeds(o.digest, over, review, true, s.now, works) ==>
                      StoreOk(o.digest, Saved(over, review), s.nextId + 2) && over.log <= Saved(over, review).log)
  {
    if slot in s.invocations {
      var asked := AskedReview(o, s.store, s.now, s.nextId, s.invocations[slot].request, pending, lease);
      if asked.Some? {
        var (over, review) := asked.value;
        if over.record.Some? {
          SaveKeepsStore(o.digest, over, review, true, s.now, works, s.nextId + 2);
        } else {
          StartKeepsStore(o.digest, over, review, s.now, works, s.nextId, s.nextId + 2);
        }
      }
    }
  }

  lemma ToolReturnedMoves(o: Owner, s: System, slot: nat, result: string, works: bool)
    requires Inv(o, s)
    ensures Moves(o, s, ToolReturnedStep(o, s, slot, result, works))
  {
    hide StoreOk, SaveSucceeds, Save;
    if slot in s.invocations && s.invocations[slot].retained.Some? {
      var r := s.invocations[slot].retained.value;
      SaveKeepsStore(o.digest, s.store, r.(outcome := ExpiryCompleted(result)), false, s.now, works, s.nextId);
      if r.outcome.Dispatching? || IsResuming(r.outcome) {
        SaveKeepsStore(o.digest, s.store, r.(outcome := Completed(r.outcome.actor, result)), false, s.now, works, s.nextId);
      }
    }
  }

  lemma CompleteMoves(o: Owner, s: System, grant: Grant, result: string, works: bool)
    requires Inv(o, s)
    ensures Moves(o, s, CompleteStep(o, s, grant, result, works))
  {
    hide StoreOk, SaveSucceeds, Save;
    if s.store.record.Some? && s.store.record.value.outcome.Dispatching? {
      var r := s.store.record.value;
      SaveKeepsStore(o.digest, s.store, r.(outcome := Completed(r.outcome.actor, result)), false, s.now, works, s.nextId);
    }
  }

  lemma ExpireMoves(o: Owner, s: System, slot: nat, works: bool)
    requires Inv(o, s)
    ensures Moves(o, s, ExpireStep(o, s, slot, works))
  {
    hide StoreOk, SaveSucceeds, Save, Saved;
    if slot in s.invocations && s.invocations[slot].stage.Awaiting? && AsksForInput(s.invocations[slot].stage.asked.outcome) {
      var asked := s.invocations[slot].stage.asked;
      var next := asked.(outcome := ExpiryResuming(asked.outcome.round, Reply(asked.outcome.pending, CancelAll(asked.outcome.pending.keys))));
      SaveKeepsStore(o.digest, s.store, next, false, s.now, works, s.nextId);
      SavedIsSave(o.digest, s.store, next, false, s.now, works);
    }
  }

  lemma RespondMoves(o: Owner, s: System, a: InputResponse, works: bool)
    requires Inv(o, s)
    ensures Moves(o, s, RespondStep(o, s, a, works).0)
  {
    hide StoreOk, SaveSucceeds, Save, Saved;
    var found := InputReply(o, s.store, a, s.now);
    if found.Some? && found.value.0.outcome.InputWaiting? {
      var (r, reply) := found.value;
      var next := r.(outcome := InputResuming(r.outcome.round, reply, a.actor));
      SaveKeepsStore(o.digest, s.store, next, true, s.now, works, s.nextId);
      SavedIsSave(o.digest, s.store, next, true, s.now, works);
    }
  }

  lemma DecideMoves(o: Owner, s: System, a: Approval, works: bool)
    requires Inv(o, s)
    ensures Moves(o, s, DecideStep(o, s, a, works).0)
  {
    hide StoreOk, SaveSucceeds, Save, Saved, ChildDecisionOk, RootDecisionOk;
    var found := Addressed(o, s.store, a, s.now);
    if found.Some? {
      var r := found.value;
      if r.outcome.Waiting? {
        SaveKeepsStore(o.digest, s.store, Decided(r, a), true, s.now, works, s.nextId);
        SavedIsSave(o.digest, s.store, Decided(r, a), true, s.now, works);
      } else if r.outcome.ReviewWaiting? && r.outcome.pending.delegated.Some? {
        SaveKeepsStore(o.digest, s.store, ChildDecided(r, a), true, s.now, works, s.nextId);
        SavedIsSave(o.digest, s.store, ChildDecided(r, a), true, s.now, works);
      }
    }
  }

  /** A grant is handed out only for the acceptance just stored. */
  lemma DecideGrants(o: Owner, s: System, a: Approval, works: bool)
    ensures var after := DecideStep(o, s, a, works).0;
            after.granted == s.granted
            || exists g :: after.granted == s.granted + [g] && IsRecorded(after.store.log, g)
  {
    var after := DecideStep(o, s, a, works).0;
    if after.granted != s.granted {
      var r := s.store.record.value;
      assert after.store.log[|after.store.log| - 1] == Decided(r, a);
      assert Records(after.store.log, |after.store.log| - 1, Grant(r.binding.id, r.binding.action));
    }
  }

  lemma DecideKeepsInv(o: Owner, s: System, a: Approval, works: bool)
    requires Inv(o, s)
    ensures Inv(o, DecideStep(o, s, a, works).0)
  {
    hide DecideStep, StoreOk, IsRecorded;
    var after := DecideStep(o, s, a, works).0;
    DecideMoves(o, s, a, works);
    DecideGrants(o, s, a, works);
    DispatchesExtend(o, s.store.log, after.store.log, s.dispatches);
    GrantsExtend(s.store.log, after.store.log, s.granted);
  }

  lemma StepKeepsInv(o: Owner, s: System, a: Step)
    requires Inv(o, s)
    ensures Inv(o, Next(o, s, a))
  {
    hide StoreOk, DispatchesOk, GrantsOk, AskApprovalStep, DecideStep, RespondStep, CompleteStep, LoopTop, ToolReturnedStep, NeedsInputStep, ExpireStep;
    match a
    case DoAskApproval(request, lease, works, published) =>
      AskApprovalMoves(o, s, request, lease, works, published);
      AskApprovalGrants(o, s, request, lease, works, published);
      MovesKeepInv(o, s, Next(o, s, a));
    case DoDecide(approval, works) => DecideKeepsInv(o, s, approval, works);
    case DoRespond(response, works) =>
      RespondMoves(o, s, response, works);
      OthersGrantNothing(o, s, a);
      MovesKeepInv(o, s, Next(o, s, a));
    case DoComplete(grant, result, works) =>
      CompleteMoves(o, s, grant, result, works);
      OthersGrantNothing(o, s, a);
      MovesKeepInv(o, s, Next(o, s, a));
    case DoInvoke(slot, request, permit, reply) => LoopTopKeepsInv(o, s, slot, request, permit, reply);
    case DoContinue(slot) =>
      if slot in s.invocations && s.invocations[slot].stage.Resumed? {
        LoopTopKeepsInv(o, s, slot, s.invocations[slot].request, s.invocations[slot].grant, s.invocations[slot].reply);
      }
    case DoToolReturned(slot, result, works) =>
      ToolReturnedMoves(o, s, slot, result, works);
      OthersGrantNothing(o, s, a);
      MovesKeepInv(o, s, Next(o, s, a));
    case DoToolNeedsInput(slot, pending, supported, lease, works, published) =>
      ToolNeedsInputMoves(o, s, slot, pending, supported, lease, works, published);
      OthersGrantNothing(o, s, a);
      MovesKeepInv(o, s, Next(o, s, a));
    case DoExpire(slot, works) =>
      ExpireMoves(o, s, slot, works);
      OthersGrantNothing(o, s, a);
      MovesKeepInv(o, s, Next(o, s, a));
    case DoForget => ClearedKeepsStore(o.digest, s.store, s.nextId, s.nextId);
    case _ =>
  }

  lemma AskApprovalGrants(o: Owner, s: System, request: Request, lease: Option<Time>, works: bool, published: bool)
    ensures AskApprovalStep(o, s, request, lease, works, published).granted == s.granted
  {}

  lemma OthersGrantNothing(o: Owner, s: System, a: Step)
    requires a.DoRespond? || a.DoComplete? || a.DoToolReturned? || a.DoToolNeedsInput? || a.DoExpire?
    ensures Next(o, s, a).granted == s.granted
  {
    hide SaveSucceeds, InputReply, AskedReview, Save;
  }

  lemma {:induction false} RunKeepsInv(o: Owner, steps: seq<Step>)
    ensures Inv(o, Run(o, START, steps))
    decreases |steps|
  {
    if steps != [] {
      RunKeepsInv(o, steps[..|steps| - 1]);
      StepKeepsInv(o, Run(o, START, steps[..|steps| - 1]), steps[|steps| - 1]);
    }
  }

  // ---------- The story of one operation ----------

  const LAST_RANK := 2 * MAX_ROUNDS + 2

  /** How far an operation has come. */
  function Rank(o: Outcome): nat {
    match o
    case Waiting => 0
    case Dispatching(_) => 1
    case InputWaiting(round, _) => 2 * round.number
    case ReviewWaiting(round, _, _, _) => 2 * round.number
    case InputResuming(round, _, _) => 2 * round.number + 1
    case ReviewResuming(round, _, _, _, _, _) => 2 * round.number + 1
    case ExpiryResuming(round, _) => 2 * round.number + 1
    case _ => LAST_RANK
  }

  /** Between two records of one operation there are only records of that operation. */
  lemma {:induction false} OneStory(digest: Action -> string, log: seq<Review>, i: nat, j: nat)
    requires Chain(digest, log) && i < j < |log| && log[i].binding.id == log[j].binding.id
    ensures log[i].binding == log[j].binding && log[j - 1].binding == log[j].binding && Follows(log[j - 1], log[j])
    decreases j
  {
    assert Follows(log[j - 1], log[j]);
    if i < j - 1 { OneStory(digest, log, i, j - 1); }
  }

  /** Along one operation every change moves on: no phase comes back, a round is never
      repeated or skipped backwards, and there are at most twenty changes after the first. */
  lemma {:induction false} StoryMovesOn(digest: Action -> string, log: seq<Review>, i: nat, j: nat)
    requires Chain(digest, log) && i < j < |log| && log[i].binding.id == log[j].binding.id
    ensures Rank(log[i].outcome) + (j - i) <= Rank(log[j].outcome) <= LAST_RANK
    ensures HasRound(log[i].outcome) && AsksForInput(log[j].outcome) ==> log[i].outcome.round.number < log[j].outcome.round.number
    decreases j
  {
    hide Follows, DelegationOk, Starts;
    StoryClimbs(digest, log, i, j);
    if i < j - 1 { StoryMovesOn(digest, log, i, j - 1); }
    hide Chain;
  }

  lemma StoryClimbs(digest: Action -> string, log: seq<Review>, i: nat, j: nat)
    requires Chain(digest, log) && i < j < |log| && log[i].binding.id == log[j].binding.id
    ensures log[j - 1].binding.id == log[i].binding.id && Rank(log[j - 1].outcome) < Rank(log[j].outcome) <= LAST_RANK
  {
    OneStory(digest, log, i, j);
    assert WellKept(digest, log[j - 1]) && WellKept(digest, log[j]);
    hide Chain, DelegationOk;
  }

  /** Each operation starts waiting, or asking for its first input without a reviewer. */
  lemma {:induction false} StoryStarts(digest: Action -> string, log: seq<Review>, j: nat) returns (i: nat)
    requires Chain(digest, log) && j < |log|
    ensures i <= j && Starts(log, i) && log[i].binding == log[j].binding
    decreases j
  {
    if Starts(log, j) {
      i := j;
    } else {
      i := StoryStarts(digest, log, j - 1);
    }
  }

  predicate IsAcceptance(log: seq<Review>, i: nat, binding: Binding, actor: string) {
    0 < i < |log| && log[i] == Review(binding, Dispatching(actor)) && log[i - 1] == Review(binding, Waiting)
  }

  lemma DispatchingWasAccepted(digest: Action -> string, log: seq<Review>, i: nat)
    requires Chain(digest, log) && i < |log| && log[i].outcome.Dispatching?
    ensures IsAcceptance(log, i, log[i].binding, log[i].outcome.actor)
  {
    assert !Starts(log, i);
  }

  /** The reviewer a round names is the one who accepted the operation. */
  lemma {:induction false} ReviewerAccepted(digest: Action -> string, log: seq<Review>, k: nat) returns (i: nat)
    requires Chain(digest, log) && k < |log| && HasRound(log[k].outcome) && log[k].outcome.round.reviewActor.Some?
    ensures i < k && IsAcceptance(log, i, log[k].binding, log[k].outcome.round.reviewActor.value)
    decreases k
  {
    hide DelegationOk, ChildResponses, IsAcceptance;
    assert !Starts(log, k) && Follows(log[k - 1], log[k]);
    if log[k - 1].outcome.Dispatching? {
      DispatchingWasAccepted(digest, log, k - 1);
      i := k - 1;
    } else {
      i := ReviewerAccepted(digest, log, k - 1);
    }
  }

  // ---------- What holds of every run ----------

  ghost predicate WasAccepted(log: seq<Review>, upTo: nat, grant: Grant) {
    exists i: nat, binding, actor ::
      IsAcceptance(log, i, binding, actor) && i < upTo && binding.id == grant.id && binding.action == grant.action
  }

  /** Every granted call of the tool descends from one stored acceptance of exactly that
      request and action, made while it was waiting, whoever presents the grant. */
  lemma GrantedDispatchWasAccepted(o: Owner, steps: seq<Step>, k: nat)
    requires k < |Run(o, START, steps).dispatches| && Run(o, START, steps).dispatches[k].grant.Some?
    ensures var s := Run(o, START, steps);
            var d := s.dispatches[k];
            && d.at <= |s.store.log| && WasAccepted(s.store.log, d.at, d.grant.value)
            && d.grant.value.action == RootAction(d.request)
  {
    RunKeepsInv(o, steps);
    var s := Run(o, START, steps);
    var d, log := s.dispatches[k], s.store.log;
    assert DispatchOk(o, log, d);
    DispatchWasAccepted(o, log, d);
  }

  lemma DispatchWasAccepted(o: Owner, log: seq<Review>, d: Dispatch)
    requires Chain(o.digest, log) && DispatchOk(o, log, d) && d.grant.Some?
    ensures WasAccepted(log, d.at, d.grant.value)
  {
    var r := log[d.at - 1];
    if d.reply.None? {
      DispatchingWasAccepted(o.digest, log, d.at - 1);
      hide Chain;
      assert IsAcceptance(log, d.at - 1, r.binding, r.outcome.actor);
    } else {
      var i := ReviewerAccepted(o.digest, log, d.at - 1);
      hide Chain;
      assert IsAcceptance(log, i, r.binding, r.outcome.round.reviewActor.value);
    }
  }

  /** A declined operation is never called under a grant, before or after. */
  lemma DeclinedIsNeverDispatched(o: Owner, steps: seq<Step>, k: nat, j: nat)
    requires k < |Run(o, START, steps).dispatches| && Run(o, START, steps).dispatches[k].grant.Some?
    requires j < |Run(o, START, steps).store.log| && Run(o, START, steps).store.log[j].outcome.Declined?
    ensures Run(o, START, steps).dispatches[k].grant.value.id != Run(o, START, steps).store.log[j].binding.id
  {
    RunKeepsInv(o, steps);
    GrantedDispatchWasAccepted(o, steps, k);
    var s := Run(o, START, steps);
    var log, grant := s.store.log, s.dispatches[k].grant.value;
    var i: nat, binding, actor :| IsAcceptance(log, i, binding, actor) && i < s.dispatches[k].at
                                  && binding.id == grant.id && binding.action == grant.action;
    if log[j].binding.id == grant.id { OneDecision(o.digest, log, i, j); }
  }

  predicate IsDecision(o: Outcome) { o.Dispatching? || o.Declined? }

  /** An operation is decided at most once, one way. */
  lemma OneDecision(digest: Action -> string, log: seq<Review>, i: nat, j: nat)
    requires Chain(digest, log) && i < |log| && j < |log| && log[i].binding.id == log[j].binding.id
    requires IsDecision(log[i].outcome) && IsDecision(log[j].outcome)
    ensures i == j
  {
    hide DelegationOk, Starts, Chain;
    if i != j {
      var first, second := if i < j then i else j, if i < j then j else i;
      OneStory(digest, log, first, second);
      StoryMovesOn(digest, log, first, second);
      StoryMovesOn(digest, log, second - 1, second);
      if first < second - 1 { StoryMovesOn(digest, log, first, second - 1); }
    }
  }

  /** Every grant handed out is that of a stored acceptance. */
  lemma GrantsWereAccepted(o: Owner, steps: seq<Step>, k: nat)
    requires k < |Run(o, START, steps).granted|
    ensures var s := Run(o, START, steps); WasAccepted(s.store.log, |s.store.log|, s.granted[k])
  {
    RunKeepsInv(o, steps);
    var s := Run(o, START, steps);
    assert IsRecorded(s.store.log, s.granted[k]);
    var i: nat :| Records(s.store.log, i, s.granted[k]);
    DispatchingWasAccepted(o.digest, s.store.log, i);
  }

  /** The reply a call carries is the one stored for its operation: a person's answer, a
      child decision spelled out for exactly that child request and action, or the automatic
      cancellation of every input. */
  lemma RepliesWereStored(o: Owner, steps: seq<Step>, k: nat)
    requires k < |Run(o, START, steps).dispatches| && Run(o, START, steps).dispatches[k].reply.Some?
    ensures var s := Run(o, START, steps);
            var d := s.dispatches[k];
            && 1 < d.at <= |s.store.log|
            && var stored, asked := s.store.log[d.at - 1].outcome, s.store.log[d.at - 2].outcome;
               && AsksForInput(asked) && HasReply(stored) && stored.round == asked.round
               && stored.reply == d.reply.value && d.reply.value.pending == asked.pending
               && d.reply.value.responses.Keys == asked.pending.keys
               && (stored.ExpiryResuming? ==> d.reply.value.responses == CancelAll(asked.pending.keys))
               && (stored.ReviewResuming? ==>
                     asked.ReviewWaiting? && asked.pending.delegated.Some?
                     && asked.child == RootAction(d.request).(subject := Some(asked.pending.delegated.value.subject))
                     && d.reply.value.responses
                        == ChildResponses(asked.pending.delegated.value.key, stored.decision, asked.round.input, asked.child))
  {
    hide Next, Advances, InputReply;
    RunKeepsInv(o, steps);
    var s := Run(o, START, steps);
    var d, log := s.dispatches[k], s.store.log;
    assert DispatchOk(o, log, d);
    assert !Starts(log, d.at - 1) && WellKept(o.digest, log[d.at - 1]);
    assert Follows(log[d.at - 2], log[d.at - 1]);
  }

  /** The record changes hands only when the operation has ended, or was cleared from outside. */
  lemma NewOperationNeedsTheEnd(o: Owner, s: System, a: Step)
    requires Inv(o, s) && s.store.record.Some? && !a.DoForget?
    ensures var r, after := s.store.record.value, Next(o, s, a).store.record;
            IsTerminal(r.outcome) || (after.Some? && after.value.binding == r.binding)
  {
    hide StoreOk, DispatchesOk, GrantsOk, Advances, DelegationOk, SchemaOk, ContinuationOk, MayDispatch;
    var after := Next(o, s, a).store.record;
    match a
    case _ =>
  }

  lemma {:induction false} LogGrows(o: Owner, steps: seq<Step>, more: seq<Step>)
    ensures Run(o, START, steps).store.log <= Run(o, START, steps + more).store.log
    decreases |more|
  {
    if more == [] {
      assert steps + more == steps;
    } else {
      var n, all := |more| - 1, steps + more;
      assert all[..|all| - 1] == steps + more[..n] && all[|all| - 1] == more[n];
      LogGrows(o, steps, more[..n]);
      RunKeepsInv(o, steps + more[..n]);
      StepExtendsLog(o, Run(o, START, steps + more[..n]), more[n]);
    }
  }

  lemma StepExtendsLog(o: Owner, s: System, a: Step)
    requires Inv(o, s)
    ensures s.store.log <= Next(o, s, a).store.log
  {
    hide Inv, AskApprovalStep, DecideStep, RespondStep, CompleteStep, ToolReturnedStep, NeedsInputStep, ExpireStep;
    match a
    case DoAskApproval(request, lease, works, published) => AskApprovalMoves(o, s, request, lease, works, published);
    case DoDecide(approval, works) => DecideMoves(o, s, approval, works);
    case DoRespond(response, works) => RespondMoves(o, s, response, works);
    case DoComplete(grant, result, works) => CompleteMoves(o, s, grant, result, works);
    case DoToolReturned(slot, result, works) => ToolReturnedMoves(o, s, slot, result, works);
    case DoToolNeedsInput(slot, pending, supported, lease, works, published) =>
      ToolNeedsInputMoves(o, s, slot, pending, supported, lease, works, published);
    case DoExpire(slot, works) => ExpireMoves(o, s, slot, works);
    case _ =>
  }

  /** A stored decision stays the only one of its operation, whatever happens afterwards. */
  lemma DecisionIsFinal(o: Owner, steps: seq<Step>, more: seq<Step>, i: nat, j: nat)
    requires i < |Run(o, START, steps).store.log| && IsDecision(Run(o, START, steps).store.log[i].outcome)
    requires j < |Run(o, START, steps + more).store.log| && IsDecision(Run(o, START, steps + more).store.log[j].outcome)
    requires Run(o, START, steps + more).store.log[j].binding.id == Run(o, START, steps).store.log[i].binding.id
    ensures j == i && Run(o, START, steps + more).store.log[j] == Run(o, START, steps).store.log[i]
  {
    LogGrows(o, steps, more);
    RunKeepsInv(o, steps + more);
    OneDecision(o.digest, Run(o, START, steps + more).store.log, i, j);
  }

  // ---------- Each request is asked and answered once ----------

  predicate Asks(o: Outcome) { o.Waiting? || AsksForInput(o) }

  function RequestOf(r: Review): Id
    requires Asks(r.outcome)
  {
    if r.outcome.Waiting? then r.binding.id else r.outcome.round.input
  }

  /** Requests are asked under ever higher ids. */
  ghost predicate AsksAscend(log: seq<Review>, nextId: Id) {
    && (forall i | 0 <= i < |log| && Asks(log[i].outcome) :: RequestOf(log[i]) < nextId)
    && (forall i, j | 0 <= i < j < |log| && Asks(log[i].outcome) && Asks(log[j].outcome) :: RequestOf(log[i]) < RequestOf(log[j]))
  }

  /** A step stores at most one change, and asks only under an id not used before. */
  ghost predicate AsksFresh(s: System, after: System) {
    && s.nextId <= after.nextId
    && (after.store.log == s.store.log
        || exists r :: after.store.log == s.store.log + [r] && (Asks(r.outcome) ==> s.nextId <= RequestOf(r) < after.nextId))
  }

  lemma SaveAppends(digest: Action -> string, store: Store, next: Review, event: bool, now: Time, works: bool)
    ensures var log := Save(digest, store, next, event, now, works).log; log == store.log || log == store.log + [next]
    ensures Saved(store, next).log == store.log || Saved(store, next).log == store.log + [next]
  {}

  lemma ToolNeedsInputAsksFresh(o: Owner, s: System, slot: nat, pending: Pending, supported: bool, lease: Option<Time>, works: bool, published: bool)
    ensures AsksFresh(s, NeedsInputStep(o, s, slot, pending, supported, lease, works, published))
  {
    hide SaveSucceeds, Save, Saved;
    if slot in s.invocations {
      var asked := AskedReview(o, s.store, s.now, s.nextId, s.invocations[slot].request, pending, lease);
      if asked.Some? { SaveAppends(o.digest, asked.value.0, asked.value.1, true, s.now, works); }
    }
  }

  lemma DecideAsksFresh(o: Owner, s: System, a: Approval, works: bool)
    ensures AsksFresh(s, DecideStep(o, s, a, works).0)
  {
    hide SaveSucceeds, Saved, ChildDecisionOk, RootDecisionOk;
    var found := Addressed(o, s.store, a, s.now);
    if found.Some? {
      var r := found.value;
      if r.outcome.Waiting? { SaveAppends(o.digest, s.store, Decided(r, a), true, s.now, works); }
      if r.outcome.ReviewWaiting? && r.outcome.pending.delegated.Some? {
        SaveAppends(o.digest, s.store, ChildDecided(r, a), true, s.now, works);
      }
    }
  }

  lemma RespondAsksFresh(o: Owner, s: System, a: InputResponse, works: bool)
    ensures AsksFresh(s, RespondStep(o, s, a, works).0)
  {
    hide SaveSucceeds, Saved;
    var found := InputReply(o, s.store, a, s.now);
    if found.Some? {
      var (r, reply) := found.value;
      SaveAppends(o.digest, s.store, r.(outcome := InputResuming(r.outcome.round, reply, a.actor)), true, s.now, works);
    }
  }

  lemma CompleteAsksFresh(o: Owner, s: System, grant: Grant, result: string, works: bool)
    ensures AsksFresh(s, CompleteStep(o, s, grant, result, works))
  {
    hide SaveSucceeds, Save;
    if s.store.record.Some? && s.store.record.value.outcome.Dispatching? {
      var r := s.store.record.value;
      SaveAppends(o.digest, s.store, r.(outcome := Completed(r.outcome.actor, result)), false, s.now, works);
    }
  }

  lemma ToolReturnedAsksFresh(o: Owner, s: System, slot: nat, result: string, works: bool)
    ensures AsksFresh(s, ToolReturnedStep(o, s, slot, result, works))
  {
    hide SaveSucceeds, Save;
    if slot in s.invocations && s.invocations[slot].retained.Some? {
      var r := s.invocations[slot].retained.value;
      SaveAppends(o.digest, s.store, r.(outcome := ExpiryCompleted(result)), false, s.now, works);
      if r.outcome.Dispatching? || IsResuming(r.outcome) {
        SaveAppends(o.digest, s.store, r.(outcome := Completed(r.outcome.actor, result)), false, s.now, works);
      }
    }
  }

  lemma AskApprovalAsksFresh(o: Owner, s: System, request: Request, lease: Option<Time>, works: bool, published: bool)
    ensures AsksFresh(s, AskApprovalStep(o, s, request, lease, works, published))
  {
    hide SaveSucceeds, Save;
    var asked := NewOperation(o, s.store, s.now, s.nextId, request, Waiting, lease);
    if asked.Some? { SaveAppends(o.digest, Cleared(s.store), asked.value, true, s.now, works); }
  }

  lemma ExpireAsksFresh(o: Owner, s: System, slot: nat, works: bool)
    ensures AsksFresh(s, ExpireStep(o, s, slot, works))
  {
    hide SaveSucceeds, Saved, OperationExpiry, PlatformReleases;
    if slot in s.invocations && s.invocations[slot].stage.Awaiting? && AsksForInput(s.invocations[slot].stage.asked.outcome) {
      var asked := s.invocations[slot].stage.asked;
      var next := asked.(outcome := ExpiryResuming(asked.outcome.round, Reply(asked.outcome.pending, CancelAll(asked.outcome.pending.keys))));
      SaveAppends(o.digest, s.store, next, false, s.now, works);
    }
  }

  lemma StepAsksFresh(o: Owner, s: System, a: Step)
    ensures AsksFresh(s, Next(o, s, a))
  {
    hide AskApprovalStep, DecideStep, RespondStep, CompleteStep, LoopTop, ToolReturnedStep, NeedsInputStep, ExpireStep;
    match a
    case DoAskApproval(request, lease, works, published) => AskApprovalAsksFresh(o, s, request, lease, works, published);
    case DoDecide(approval, works) => DecideAsksFresh(o, s, approval, works);
    case DoRespond(response, works) => RespondAsksFresh(o, s, response, works);
    case DoComplete(grant, result, works) => CompleteAsksFresh(o, s, grant, result, works);
    case DoInvoke(slot, request, permit, reply) => LoopTopKeepsStore(o, s, slot, request, permit, reply);
    case DoContinue(slot) =>
      if slot in s.invocations {
        LoopTopKeepsStore(o, s, slot, s.invocations[slot].request, s.invocations[slot].grant, s.invocations[slot].reply);
      }
    case DoToolReturned(slot, result, works) => ToolReturnedAsksFresh(o, s, slot, result, works);
    case DoToolNeedsInput(slot, pending, supported, lease, works, published) =>
      ToolNeedsInputAsksFresh(o, s, slot, pending, supported, lease, works, published);
    case DoExpire(slot, works) => ExpireAsksFresh(o, s, slot, works);
    case _ =>
  }

  lemma LoopTopKeepsStore(o: Owner, s: System, slot: nat, request: Request, grant: Option<Grant>, reply: Option<Reply>)
    ensures var after := LoopTop(o, s, slot, request, grant, reply); after.store == s.store && after.nextId == s.nextId
  {}

  lemma FreshAsksAscend(s: System, after: System)
    requires AsksAscend(s.store.log, s.nextId) && AsksFresh(s, after)
    ensures AsksAscend(after.store.log, after.nextId)
  {}

  lemma {:induction false} RunAsksAscend(o: Owner, steps: seq<Step>)
    ensures AsksAscend(Run(o, START, steps).store.log, Run(o, START, steps).nextId)
    decreases |steps|
  {
    if steps != [] {
      hide Next, AsksAscend, AsksFresh;
      var s := Run(o, START, steps[..|steps| - 1]);
      RunAsksAscend(o, steps[..|steps| - 1]);
      StepAsksFresh(o, s, steps[|steps| - 1]);
      FreshAsksAscend(s, Next(o, s, steps[|steps| - 1]));
    }
  }

  /** Entry `i` stores the decision or the reply for the request. */
  predicate AnsweredAt(log: seq<Review>, i: nat, request: Id) {
    i < |log| && ((IsDecision(log[i].outcome) && log[i].binding.id == request)
                  || (IsResuming(log[i].outcome) && log[i].outcome.round.input == request))
  }

  /** The entry before asks for exactly that request. */
  lemma AnswerFollowsAsk(digest: Action -> string, log: seq<Review>, i: nat, request: Id)
    requires Chain(digest, log) && AnsweredAt(log, i, request)
    ensures 0 < i && Asks(log[i - 1].outcome) && RequestOf(log[i - 1]) == request && log[i - 1].binding == log[i].binding
  {
    assert !Starts(log, i);
  }

  lemma AnsweredOnce(digest: Action -> string, log: seq<Review>, nextId: Id, i: nat, j: nat, request: Id)
    requires Chain(digest, log) && AsksAscend(log, nextId) && AnsweredAt(log, i, request) && AnsweredAt(log, j, request)
    ensures i == j
  {
    AnswerFollowsAsk(digest, log, i, request);
    AnswerFollowsAsk(digest, log, j, request);
  }

  // ---------- What a sender is told ----------

  predicate IsChild(o: Outcome) { o.ReviewWaiting? || o.ReviewResuming? }

  /** The approval comes to the owner of the operation before the time of its kind is over. */
  predicate InTime(o: Owner, r: Review, a: Approval, now: Time) {
    && !a.feedback && r.binding.workId == o.workId && a.session == o.session && a.turn == o.turn
    && now < (if !IsChild(r.outcome) then r.binding.expiresAt else if a.decision.Decline? then DeclineExpiry(r) else OperationExpiry(r))
  }

  predicate AsksDecision(r: Review, a: Approval) {
    && !a.decision.OtherDecision?
    && ((r.outcome.Waiting? && a.request == r.binding.id && a.hash == r.binding.hash)
        || (r.outcome.ReviewWaiting? && a.request == r.outcome.round.input && a.hash == r.outcome.childHash))
  }

  /** What the record stores is this very decision of this very actor. */
  predicate StoresDecision(r: Review, a: Approval) {
    match r.outcome
    case Dispatching(actor) => a.decision.Accept? && actor == a.actor && a.request == r.binding.id && a.hash == r.binding.hash
    case Declined(actor) => a.decision.Decline? && actor == a.actor && a.request == r.binding.id && a.hash == r.binding.hash
    case ReviewResuming(round, _, childHash, _, actor, decision) =>
      !decision.OtherDecision? && a.decision == decision && actor == a.actor && a.request == round.input && a.hash == childHash
    case _ => false
  }

  /** The entry before the last let the tool be called by that actor. */
  predicate LastCalledBy(log: seq<Review>, actor: string) {
    && |log| >= 2 && (log[|log| - 2].outcome.Dispatching? || IsResuming(log[|log| - 2].outcome))
    && log[|log| - 2].outcome.actor == actor
  }

  /** The last entry ends the operation, which its last caller now accepts. */
  predicate EndsCallOf(log: seq<Review>, a: Approval) {
    && LastCalledBy(log, a.actor) && log[|log| - 1].outcome.Completed?
    && a.decision.Accept? && a.request == log[|log| - 1].binding.id && a.hash == log[|log| - 1].binding.hash
  }

  /** A decision is taken exactly when the running operation asks for it in time and the state
      file can be written; it is a repeat exactly when it is what was stored last, or accepts
      an operation whose last call its actor let through; in every other case it is refused.
      Only a taken one changes anything, and it is what the log then ends with. */
  predicate DecisionIsReceived(o: Owner, s: System, a: Approval, works: bool) {
    var (after, reception) := DecideStep(o, s, a, works);
    var log := s.store.log;
    var timely := s.store.record.Some? && log != [] && InTime(o, log[|log| - 1], a, s.now);
    && (reception.Taken? <==> works && timely && AsksDecision(log[|log| - 1], a))
    && (reception.Repeated? <==> timely && (StoresDecision(log[|log| - 1], a) || EndsCallOf(log, a)))
    && (!reception.Taken? ==> after == s)
    && (reception.Taken? ==>
          |after.store.log| == |log| + 1 && log <= after.store.log && StoresDecision(after.store.log[|log|], a))
  }

  lemma DecisionReceived(o: Owner, steps: seq<Step>, a: Approval, works: bool)
    ensures DecisionIsReceived(o, Run(o, START, steps), a, works)
  {
    RunKeepsInv(o, steps);
    DecisionReceivedAt(o, Run(o, START, steps), a, works);
  }

  lemma DecisionReceivedAt(o: Owner, s: System, a: Approval, works: bool)
    requires Inv(o, s)
    ensures DecisionIsReceived(o, s, a, works)
  {
    var log := s.store.log;
    if s.store.record.Some? {
      var r := s.store.record.value;
      assert log[|log| - 1] == r && WellKept(o.digest, r);
      if r.outcome.Completed? { CompletedAfterCall(o.digest, log); }
      hide Inv, StoreOk, Chain;
      if r.outcome.Waiting? {
        WaitingReceives(o, s, a, works);
      } else if r.outcome.ReviewWaiting? {
        ReviewWaitingReceives(o, s, a, works);
      } else {
        OthersReceive(o, s, a, works);
      }
    }
  }

  lemma WaitingReceives(o: Owner, s: System, a: Approval, works: bool)
    requires s.store.record.Some? && s.store.log != [] && s.store.log[|s.store.log| - 1] == s.store.record.value
    requires s.store.record.value.outcome.Waiting? && WellKept(o.digest, s.store.record.value)
    ensures DecisionIsReceived(o, s, a, works)
  {
    hide DeclineExpiry, OperationExpiry;
  }

  lemma ReviewWaitingReceives(o: Owner, s: System, a: Approval, works: bool)
    requires s.store.record.Some? && s.store.log != [] && s.store.log[|s.store.log| - 1] == s.store.record.value
    requires s.store.record.value.outcome.ReviewWaiting? && WellKept(o.digest, s.store.record.value)
    ensures DecisionIsReceived(o, s, a, works)
  {
    hide DeclineExpiry, OperationExpiry, Advances, DelegationOk, SaveAllowed;
    ChildSaveAllowed(o.digest, s.store.record.value, a, s.now);
    hide SaveAllowed, WellKept;
  }

  lemma ChildSaveAllowed(digest: Action -> string, r: Review, a: Approval, now: Time)
    requires r.outcome.ReviewWaiting? && WellKept(digest, r)
    ensures r.outcome.pending.delegated.Some?
    ensures !a.decision.OtherDecision? ==> SaveAllowed(digest, Some(r), ChildDecided(r, a), true, now)
  {}

  lemma OthersReceive(o: Owner, s: System, a: Approval, works: bool)
    requires s.store.record.Some? && s.store.log != [] && s.store.log[|s.store.log| - 1] == s.store.record.value
    requires !s.store.record.value.outcome.Waiting? && !s.store.record.value.outcome.ReviewWaiting?
    requires s.store.record.value.outcome.Completed? ==> LastCalledBy(s.store.log, s.store.record.value.outcome.actor)
    requires WellKept(o.digest, s.store.record.value)
    ensures DecisionIsReceived(o, s, a, works)
  {
    hide DeclineExpiry, OperationExpiry, SaveSucceeds, Saved;
  }

  /** A completed record keeps the actor who last let the tool be called. */
  lemma CompletedAfterCall(digest: Action -> string, log: seq<Review>)
    requires Chain(digest, log) && log != [] && log[|log| - 1].outcome.Completed?
    ensures LastCalledBy(log, log[|log| - 1].outcome.actor) && log[|log| - 2].binding == log[|log| - 1].binding
  {
    assert !Starts(log, |log| - 1) && Follows(log[|log| - 2], log[|log| - 1]);
  }

  predicate ReplyInTime(o: Owner, r: Review, a: InputResponse, now: Time) {
    r.binding.workId == o.workId && a.session == o.session && a.turn == o.turn && now < OperationExpiry(r)
  }

  /** The answers a response stands for. */
  predicate Means(a: InputResponse, reply: Reply) {
    && a.wellTyped && reply.responses.Keys == reply.pending.keys
    && (if a.cancelled then a.value.None? && reply.responses == CancelAll(reply.pending.keys) else a.value == Some(reply.responses))
  }

  predicate StoresReply(r: Review, a: InputResponse) {
    r.outcome.InputResuming? && r.outcome.round.input == a.request && r.outcome.actor == a.actor && Means(a, r.outcome.reply)
  }

  predicate AsksReply(r: Review, a: InputResponse) {
    && r.outcome.InputWaiting? && r.outcome.round.input == a.request && (a.cancelled || a.value.Some?)
    && Means(a, Reply(r.outcome.pending, if a.cancelled then CancelAll(r.outcome.pending.keys) else a.value.value))
  }

  /** The same for the answer to an input request: a repeat is recognised only as long as
      the reply is the last thing stored. */
  predicate ResponseIsReceived(o: Owner, s: System, a: InputResponse, works: bool) {
    var (after, reception) := RespondStep(o, s, a, works);
    var log := s.store.log;
    var timely := s.store.record.Some? && log != [] && ReplyInTime(o, log[|log| - 1], a, s.now);
    && (reception.Taken? <==> works && timely && AsksReply(log[|log| - 1], a))
    && (reception.Repeated? <==> timely && StoresReply(log[|log| - 1], a))
    && (!reception.Taken? ==> after == s)
    && (reception.Taken? ==>
          |after.store.log| == |log| + 1 && log <= after.store.log && StoresReply(after.store.log[|log|], a)
          && after.store.log[|log|].outcome.reply.pending == log[|log| - 1].outcome.pending)
  }

  lemma ResponseReceived(o: Owner, steps: seq<Step>, a: InputResponse, works: bool)
    ensures ResponseIsReceived(o, Run(o, START, steps), a, works)
  {
    RunKeepsInv(o, steps);
    ResponseReceivedAt(o, Run(o, START, steps), a, works);
  }

  lemma ResponseReceivedAt(o: Owner, s: System, a: InputResponse, works: bool)
    requires Inv(o, s)
    ensures ResponseIsReceived(o, s, a, works)
  {
    var log := s.store.log;
    if s.store.record.Some? { assert WellKept(o.digest, log[|log| - 1]) && log[|log| - 1] == s.store.record.value; }
    hide Inv, StoreOk, Chain, OperationExpiry, CancelAll;
  }

  /** The request a step answers, when what it brings is stored. */
  function RequestTaken(o: Owner, s: System, a: Step): Option<Id> {
    match a
    case DoDecide(approval, works) => if DecideStep(o, s, approval, works).1.Taken? then Some(approval.request) else None
    case DoRespond(response, works) => if RespondStep(o, s, response, works).1.Taken? then Some(response.request) else None
    case _ => None
  }

  lemma TakenIsLogged(o: Owner, s: System, a: Step)
    requires RequestTaken(o, s, a).Some? && Inv(o, s)
    ensures var log := Next(o, s, a).store.log;
            |log| == |s.store.log| + 1 && AnsweredAt(log, |s.store.log|, RequestTaken(o, s, a).value)
  {
    hide Inv, DecideStep, RespondStep, InTime, ReplyInTime, Means;
    match a
    case DoDecide(approval, works) => DecisionReceivedAt(o, s, approval, works);
    case DoRespond(response, works) => ResponseReceivedAt(o, s, response, works);
  }

  lemma LogReaches(o: Owner, steps: seq<Step>, k: nat, j: nat)
    requires k <= j <= |steps|
    ensures Run(o, START, steps[..k]).store.log <= Run(o, START, steps[..j]).store.log
  {
    assert steps[..k] + steps[k..j] == steps[..j];
    LogGrows(o, steps[..k], steps[k..j]);
  }

  /** No request is answered twice: once a decision or a reply for it has been taken, every
      later one is repeated or rejected. */
  lemma RequestTakenOnce(o: Owner, steps: seq<Step>, k: nat, j: nat)
    requires k < j < |steps|
    requires RequestTaken(o, Run(o, START, steps[..k]), steps[k]).Some?
    ensures RequestTaken(o, Run(o, START, steps[..j]), steps[j]) != RequestTaken(o, Run(o, START, steps[..k]), steps[k])
  {
    hide Next, RequestTaken, AnsweredAt;
    var earlier, later := Run(o, START, steps[..k]), Run(o, START, steps[..j]);
    if RequestTaken(o, later, steps[j]) == RequestTaken(o, earlier, steps[k]) {
      var request := RequestTaken(o, earlier, steps[k]).value;
      assert steps[..k + 1][..k] == steps[..k] && steps[..j + 1][..j] == steps[..j];
      RunKeepsInv(o, steps[..k]);
      RunKeepsInv(o, steps[..j]);
      TakenIsLogged(o, earlier, steps[k]);
      TakenIsLogged(o, later, steps[j]);
      LogReaches(o, steps, k + 1, j);
      LogReaches(o, steps, j, j + 1);
      RunKeepsInv(o, steps[..j + 1]);
      RunAsksAscend(o, steps[..j + 1]);
      AnswerStays(Run(o, START, steps[..k + 1]).store.log, Run(o, START, steps[..j + 1]).store.log, |earlier.store.log|, request);
      AnsweredOnce(o.digest, Run(o, START, steps[..j + 1]).store.log, Run(o, START, steps[..j + 1]).nextId,
                   |earlier.store.log|, |later.store.log|, request);
    }
  }

  lemma AnswerStays(log: seq<Review>, longer: seq<Review>, i: nat, request: Id)
    requires log <= longer && AnsweredAt(log, i, request)
    ensures AnsweredAt(longer, i, request)
  {}

  /** After the acceptance nothing asks for the operation's approval again, and no other
      entry stores it. */
  lemma AcceptanceIsPast(digest: Action -> string, log: seq<Review>, nextId: Id, i: nat, a: Approval)
    requires Chain(digest, log) && AsksAscend(log, nextId)
    requires i < |log| && log[i].binding == log[|log| - 1].binding && log[i].outcome.Dispatching? && log[i].binding.id == a.request
    ensures !AsksDecision(log[|log| - 1], a)
    ensures StoresDecision(log[|log| - 1], a) ==> log[|log| - 1].outcome.Dispatching?
  {
    AnswerFollowsAsk(digest, log, i, a.request);
    if StoresDecision(log[|log| - 1], a) { AnsweredOnce(digest, log, nextId, i, |log| - 1, a.request); }
  }

  /** An acceptance given again by the one who gave it is recognised until the tool asks for
      input, refused as long as the operation is at its inputs or has expired, and afterwards
      recognised only if the same person answered last. */
  lemma AcceptRepeated(o: Owner, steps: seq<Step>, i: nat, a: Approval, works: bool)
    requires var s := Run(o, START, steps);
             && s.store.record.Some? && i < |s.store.log| && s.store.log[i] == Review(s.store.record.value.binding, Dispatching(a.actor))
             && IsRootAccept(o, s.store.record.value, a, s.now)
    ensures var s := Run(o, START, steps);
            var reception, outcome := DecideStep(o, s, a, works).1, s.store.record.value.outcome;
            && !reception.Taken?
            && (reception.Repeated? <==> outcome.Dispatching? || (outcome.Completed? && LastCalledBy(s.store.log, a.actor)))
  {
    RunKeepsInv(o, steps);
    RunAsksAscend(o, steps);
    AcceptRepeatedAt(o, Run(o, START, steps), i, a, works);
  }

  lemma AcceptRepeatedAt(o: Owner, s: System, i: nat, a: Approval, works: bool)
    requires Inv(o, s) && AsksAscend(s.store.log, s.nextId)
    requires s.store.record.Some? && i < |s.store.log| && s.store.log[i] == Review(s.store.record.value.binding, Dispatching(a.actor))
    requires IsRootAccept(o, s.store.record.value, a, s.now)
    ensures var reception, outcome := DecideStep(o, s, a, works).1, s.store.record.value.outcome;
            && !reception.Taken?
            && (reception.Repeated? <==> outcome.Dispatching? || (outcome.Completed? && LastCalledBy(s.store.log, a.actor)))
  {
    hide Follows, Advances, DecideStep, DispatchOk, DelegationOk, StoresDecision, SaveAllowed;
    AcceptanceIsPast(o.digest, s.store.log, s.nextId, i, a);
    AcceptReceived(o.digest, s.store.log, i, a);
    DecisionReceivedAt(o, s, a, works);
    hide Chain, AsksAscend, DecideStep, AsksDecision, WellKept, DispatchesOk, GrantsOk, Starts;
  }

  lemma AcceptReceived(digest: Action -> string, log: seq<Review>, i: nat, a: Approval)
    requires Chain(digest, log) && i < |log| && log[i] == Review(log[|log| - 1].binding, Dispatching(a.actor))
    requires a.decision.Accept? && a.request == log[i].binding.id && a.hash == log[i].binding.hash
    ensures log[|log| - 1].outcome.Dispatching? ==> StoresDecision(log[|log| - 1], a)
  {
    if log[|log| - 1].outcome.Dispatching? { OneDecision(digest, log, i, |log| - 1); }
  }

  predicate IsRootAccept(o: Owner, r: Review, a: Approval, now: Time) {
    && !a.feedback && r.binding.workId == o.workId && a.session == o.session && a.turn == o.turn
    && a.request == r.binding.id && a.hash == r.binding.hash && a.decision.Accept? && r.binding.expiresAt > now
  }

  // ---------- Whose repeat is recognised after completion ----------

  /** A completed record keeps the actor who last let the tool be called: the one who
      accepted, when the tool then finished, and otherwise the one who answered last.  An
      accept given again is recognised exactly when it is theirs. */
  lemma RepeatAfterCompletion(o: Owner, s: System, a: Approval)
    requires Inv(o, s) && s.store.record.Some? && s.store.record.value.outcome.Completed?
    requires IsRootAccept(o, s.store.record.value, a, s.now)
    ensures Addressed(o, s.store, a, s.now).Some? <==> LastCalledBy(s.store.log, a.actor)
  {
    CompletedAfterCall(o.digest, s.store.log);
  }

  // ---------- When the tool is called ----------

  /** A suspended invocation that goes on has its reply. */
  ghost predicate ResumedHaveReplies(s: System) {
    forall slot | slot in s.invocations && s.invocations[slot].stage.Resumed? :: s.invocations[slot].reply.Some?
  }

  lemma StepKeepsReplies(o: Owner, s: System, a: Step)
    requires ResumedHaveReplies(s)
    ensures ResumedHaveReplies(Next(o, s, a))
  {
    hide SaveSucceeds, Saved, Save, Addressed, InputReply, AskedReview, MayDispatch, NewOperation, OperationExpiry, PlatformReleases;
    match a
    case _ =>
  }

  lemma {:induction false} RunKeepsReplies(o: Owner, steps: seq<Step>)
    ensures ResumedHaveReplies(Run(o, START, steps))
    decreases |steps|
  {
    hide Next;
    if steps != [] {
      RunKeepsReplies(o, steps[..|steps| - 1]);
      StepKeepsReplies(o, Run(o, START, steps[..|steps| - 1]), steps[|steps| - 1]);
    }
  }

  /** Until when a call may be made for the record: the earlier of the input's deadline and the
      operation's, where a decline the platform releases has the operation's. */
  function CallableUntil(r: Review): Time {
    if !IsResuming(r.outcome) then r.binding.expiresAt
    else
      var pending := r.outcome.reply.pending;
      if pending.deadline.None? || r.binding.expiresAt <= pending.deadline.value
         || (r.outcome.ReviewResuming? && r.outcome.decision == Decline && pending.cancelOnExpiry)
      then r.binding.expiresAt
      else pending.deadline.value
  }

  /** The record is the operation this request belongs to, and the grant is its own. */
  predicate IsOperationOf(o: Owner, r: Review, request: Request, grant: Option<Grant>) {
    && r.binding.workId == o.workId && r.binding.native == request.native
    && r.binding.action == Action(request.attachment, request.tool, request.arguments, None)
    && (grant.Some? ==> grant.value == Grant(r.binding.id, r.binding.action))
  }

  /** What a call needs of the last thing stored: without grant and reply, that it is no record
      of the same call; under a grant alone, the acceptance; with a reply, that it holds exactly
      this reply, answered, decided or cancelled, and was granted exactly if the call is. */
  predicate MayBeCalled(o: Owner, store: Store, request: Request, grant: Option<Grant>, reply: Option<Reply>, now: Time) {
    var log := store.log;
    if grant.None? && reply.None? then
      store.record.None? || log == []
      || log[|log| - 1].binding.native.call != request.native.call || log[|log| - 1].binding.native.turn != request.native.turn
    else
      && store.record.Some? && log != [] && IsOperationOf(o, log[|log| - 1], request, grant) && now < CallableUntil(log[|log| - 1])
      && var outcome := log[|log| - 1].outcome;
         if reply.None? then outcome.Dispatching?
         else
           && (outcome.InputResuming? || outcome.ReviewResuming? || outcome.ExpiryResuming?)
           && outcome.reply == reply.value && (outcome.round.reviewActor.Some? <==> grant.Some?)
  }

  /** The tool is called, with what was stored at that time, or the invocation ends. */
  predicate CallsIf(s: System, after: System, slot: nat, request: Request, grant: Option<Grant>, reply: Option<Reply>, calls: bool) {
    if calls then
      after == s.(invocations := s.invocations[slot := Invocation(request, grant, reply, s.store.record, Calling)],
                  dispatches := s.dispatches + [Dispatch(request, grant, reply, s.store.record, |s.store.log|)])
    else after == s.(invocations := s.invocations - {slot})
  }

  /** In every run an invocation that begins, and one that continues with its reply, calls the
      tool exactly when the last thing stored allows it. */
  lemma ToolIsCalledWhen(o: Owner, steps: seq<Step>, slot: nat, request: Request, permit: Option<Grant>, reply: Option<Reply>)
    ensures var s := Run(o, START, steps);
            && (slot !in s.invocations ==>
                  CallsIf(s, Next(o, s, DoInvoke(slot, request, permit, reply)), slot, request, permit, reply,
                          MayBeCalled(o, s.store, request, permit, reply, s.now)))
            && (slot in s.invocations && s.invocations[slot].stage.Resumed? ==>
                  var i := s.invocations[slot];
                  && i.reply.Some?
                  && CallsIf(s, Next(o, s, DoContinue(slot)), slot, i.request, i.grant, i.reply,
                             MayBeCalled(o, s.store, i.request, i.grant, i.reply, s.now)))
  {
    RunKeepsInv(o, steps);
    RunKeepsReplies(o, steps);
    var s := Run(o, START, steps);
    hide Run, MayDispatch, MayBeCalled;
    CallsWhen(o, s, slot, request, permit, reply);
    if slot in s.invocations { CallsWhen(o, s, slot, s.invocations[slot].request, s.invocations[slot].grant, s.invocations[slot].reply); }
  }

  lemma CallsWhen(o: Owner, s: System, slot: nat, request: Request, grant: Option<Grant>, reply: Option<Reply>)
    requires Inv(o, s)
    ensures CallsIf(s, LoopTop(o, s, slot, request, grant, reply), slot, request, grant, reply, MayBeCalled(o, s.store, request, grant, reply, s.now))
  {
    hide Inv, StoreOk, Chain;
    if s.store.record.Some? { LastIsRecord(o, s); }
  }

  lemma LastIsRecord(o: Owner, s: System)
    requires Inv(o, s) && s.store.record.Some?
    ensures s.store.log != [] && s.store.log[|s.store.log| - 1] == s.store.record.value && WellKept(o.digest, s.store.record.value)
  {}

  // ---------- What the other steps achieve ----------

  predicate KeepsEntry(a: Step) { !a.DoForget? }

  /** Every suspended invocation waits for the input the record asks for, and is the one that
      will be told; so there is at most one. */
  ghost predicate AwaitsOk(s: System) {
    forall slot | slot in s.invocations && s.invocations[slot].stage.Awaiting? :: IsAwaited(s, slot)
  }

  predicate IsAwaited(s: System, slot: nat)
    requires slot in s.invocations && s.invocations[slot].stage.Awaiting?
  {
    var asked := s.invocations[slot].stage.asked;
    AsksForInput(asked.outcome) && s.store.record == Some(asked) && s.inputWaiting == Some((asked.outcome.round.input, slot))
  }

  lemma AskApprovalAwaits(o: Owner, s: System, request: Request, lease: Option<Time>, works: bool, published: bool)
    requires AwaitsOk(s)
    ensures AwaitsOk(AskApprovalStep(o, s, request, lease, works, published))
  {
    hide SaveSucceeds, Save;
  }

  lemma NoRoundOverAsked(digest: Action -> string, asked: Review, next: Review, now: Time)
    requires AsksForInput(asked.outcome) && AsksForInput(next.outcome)
    ensures !SaveAllowed(digest, Some(asked), next, true, now)
  {
    hide SchemaOk, DelegationOk;
  }

  lemma NoEndOverAsked(digest: Action -> string, asked: Review, next: Review, now: Time)
    requires AsksForInput(asked.outcome) && (next.outcome.Completed? || next.outcome.ExpiryCompleted?)
    ensures !SaveAllowed(digest, Some(asked), next, false, now)
  {
    hide SchemaOk, DelegationOk;
  }

  lemma NeedsInputAwaits(o: Owner, s: System, slot: nat, pending: Pending, supported: bool, lease: Option<Time>, works: bool, published: bool)
    requires AwaitsOk(s)
    ensures AwaitsOk(NeedsInputStep(o, s, slot, pending, supported, lease, works, published))
  {
    hide SaveAllowed, PriorRound, NextRound;
    if !IsCalling(s, slot) { return; }
    var asked := AskedReview(o, s.store, s.now, s.nextId, s.invocations[slot].request, pending, lease);
    if asked.Some? {
      AskedAsks(o, s.store, s.now, s.nextId, s.invocations[slot].request, pending, lease);
      if s.store.record.Some? && AsksForInput(s.store.record.value.outcome) {
        NoRoundOverAsked(o.digest, s.store.record.value, asked.value.1, s.now);
      }
    }
    hide AskedReview;
  }

  lemma AskedAsks(o: Owner, store: Store, now: Time, input: Id, request: Request, pending: Pending, lease: Option<Time>)
    ensures var asked := AskedReview(o, store, now, input, request, pending, lease);
            asked.Some? ==>
              && AsksForInput(asked.value.1.outcome) && asked.value.1.outcome.round.input == input
              && (store.record.Some? && AsksForInput(store.record.value.outcome) ==> asked.value.0 == store)
  {}

  lemma ToolReturnedAwaits(o: Owner, s: System, slot: nat, result: string, works: bool)
    requires AwaitsOk(s)
    ensures AwaitsOk(ToolReturnedStep(o, s, slot, result, works))
  {
    hide SaveAllowed;
    if IsCalling(s, slot) && s.invocations[slot].retained.Some? && s.store.record.Some? && AsksForInput(s.store.record.value.outcome) {
      var r := s.invocations[slot].retained.value;
      NoEndOverAsked(o.digest, s.store.record.value, r.(outcome := ExpiryCompleted(result)), s.now);
      if r.outcome.Dispatching? || IsResuming(r.outcome) {
        NoEndOverAsked(o.digest, s.store.record.value, r.(outcome := Completed(r.outcome.actor, result)), s.now);
      }
    }
  }

  lemma StepKeepsAwaits(o: Owner, s: System, a: Step)
    requires AwaitsOk(s) && KeepsEntry(a)
    ensures AwaitsOk(Next(o, s, a))
  {
    match a
    case DoAskApproval(request, lease, works, published) => AskApprovalAwaits(o, s, request, lease, works, published);
    case DoToolReturned(slot, result, works) => ToolReturnedAwaits(o, s, slot, result, works);
    case DoToolNeedsInput(slot, pending, supported, lease, works, published) =>
      NeedsInputAwaits(o, s, slot, pending, supported, lease, works, published);
    case _ => OthersKeepAwaits(o, s, a);
  }

  lemma OthersKeepAwaits(o: Owner, s: System, a: Step)
    requires AwaitsOk(s) && KeepsEntry(a) && !a.DoAskApproval? && !a.DoToolReturned? && !a.DoToolNeedsInput?
    ensures AwaitsOk(Next(o, s, a))
  {
    hide SaveSucceeds, AskApprovalStep, ToolReturnedStep, NeedsInputStep, MayDispatch, RootDecisionOk, ChildDecisionOk, OperationExpiry;
  }

  lemma {:induction false} RunKeepsAwaits(o: Owner, steps: seq<Step>)
    requires forall a | a in steps :: KeepsEntry(a)
    ensures AwaitsOk(Run(o, START, steps))
    decreases |steps|
  {
    hide Next;
    if steps != [] {
      RunKeepsAwaits(o, steps[..|steps| - 1]);
      StepKeepsAwaits(o, Run(o, START, steps[..|steps| - 1]), steps[|steps| - 1]);
    }
  }

  /** The invocation goes on with the reply, and nobody waits any more. */
  predicate GoesOn(s: System, after: System, slot: nat, reply: Reply) {
    && slot in s.invocations && after.inputWaiting.None?
    && after.invocations == s.invocations[slot := s.invocations[slot].(reply := Some(reply), stage := Resumed)]
  }

  /** As long as the session's entry is not forgotten, an answer or a decision that is taken
      while an invocation waits reaches it: it goes on with the reply just stored. */
  lemma AnswersReachTheCall(o: Owner, steps: seq<Step>, slot: nat, a: InputResponse, d: Approval, works: bool)
    requires forall a | a in steps :: KeepsEntry(a)
    requires var s := Run(o, START, steps); slot in s.invocations && s.invocations[slot].stage.Awaiting?
    ensures var s := Run(o, START, steps);
            var (answered, told) := RespondStep(o, s, a, works);
            var log := answered.store.log;
            told.Taken? ==> log != [] && HasReply(log[|log| - 1].outcome) && GoesOn(s, answered, slot, log[|log| - 1].outcome.reply)
    ensures var s := Run(o, START, steps);
            var (decided, told) := DecideStep(o, s, d, works);
            var log := decided.store.log;
            told.Taken? ==> log != [] && HasReply(log[|log| - 1].outcome) && GoesOn(s, decided, slot, log[|log| - 1].outcome.reply)
  {
    RunKeepsAwaits(o, steps);
    var s := Run(o, START, steps);
    assert IsAwaited(s, slot);
    hide Run, SaveSucceeds, ChildDecisionOk, RootDecisionOk, OperationExpiry, Advances;
  }

  /** No approval that waits is abandoned: none is interrupted, forgotten or lost with the process,
      and each is published. */
  predicate IsAttended(a: Step) {
    !a.DoForget? && !a.DoInterruptApproval? && !a.DoRestart? && (a.DoAskApproval? ==> a.published)
  }

  predicate ApprovalWaits(s: System) {
    s.store.record.Some? && s.store.record.value.outcome.Waiting? ==> s.waiting == Some(s.store.record.value.binding.id)
  }

  lemma StepKeepsApproval(o: Owner, s: System, a: Step)
    requires ApprovalWaits(s) && IsAttended(a)
    ensures ApprovalWaits(Next(o, s, a))
  {
    hide DelegationOk, SchemaOk, OperationExpiry, PlatformReleases, MayDispatch, RootDecisionOk, ChildDecisionOk, InputReply;
    match a
    case DoAskApproval(_, _, _, _) =>
    case DoToolNeedsInput(slot, pending, supported, lease, works, published) =>
      if slot in s.invocations { AskedAsks(o, s.store, s.now, s.nextId, s.invocations[slot].request, pending, lease); }
      hide AskedReview, SaveAllowed;
    case _ => hide AskedReview, NewOperation;
  }

  lemma {:induction false} RunKeepsApproval(o: Owner, steps: seq<Step>)
    requires forall a | a in steps :: IsAttended(a)
    ensures ApprovalWaits(Run(o, START, steps))
    decreases |steps|
  {
    hide Next;
    if steps != [] {
      RunKeepsApproval(o, steps[..|steps| - 1]);
      StepKeepsApproval(o, Run(o, START, steps[..|steps| - 1]), steps[|steps| - 1]);
    }
  }

  /** A decision on an operation that waits for it is handed to whoever waits: an accept as the
      grant of its action, a decline as none; and while approvals are attended to somebody does. */
  lemma DecisionsReachTheApproval(o: Owner, steps: seq<Step>, a: Approval, works: bool)
    requires var s := Run(o, START, steps); s.store.record.Some? && s.store.record.value.outcome.Waiting?
    ensures var s := Run(o, START, steps);
            var b := s.store.record.value.binding;
            var (after, told) := DecideStep(o, s, a, works);
            && ((forall a | a in steps :: IsAttended(a)) ==> s.waiting == Some(b.id))
            && (told.Taken? ==>
                  && after.granted == s.granted + (if a.decision.Accept? && s.waiting == Some(b.id) then [Grant(b.id, b.action)] else [])
                  && after.waiting == (if s.waiting == Some(b.id) then None else s.waiting)
                  && after.invocations == s.invocations && after.inputWaiting == s.inputWaiting)
  {
    if forall a | a in steps :: IsAttended(a) { RunKeepsApproval(o, steps); }
    var s := Run(o, START, steps);
    hide Run, SaveSucceeds, RootDecisionOk;
    assert s.granted + [] == s.granted;
  }

  /** An approval is asked for exactly when the lease lives and the last operation has ended; the
      operation that ended is forgotten, and the new one is stored if the state file can be
      written. */
  lemma ApprovalsAreAsked(o: Owner, steps: seq<Step>, request: Request, lease: Option<Time>, works: bool, published: bool)
    ensures var s := Run(o, START, steps);
            var after := Next(o, s, DoAskApproval(request, lease, works, published));
            var action := Action(request.attachment, request.tool, request.arguments, None);
            if lease.None? || lease.value <= s.now
               || (s.store.record.Some? && var was := s.store.record.value.outcome; !was.Completed? && !was.ExpiryCompleted? && !was.Declined?)
            then after == s
            else
              var expires := if lease.value < s.now + LEASE then lease.value else s.now + LEASE;
              var asked := Review(Binding(o.turn, o.workId, request.native, s.nextId, action, o.digest(action), expires), Waiting);
              after == if !works then s.(store := s.store.(record := None), nextId := s.nextId + 1)
                       else s.(store := Store(Some(asked), s.store.log + [asked]), nextId := s.nextId + 1,
                               waiting := if published then Some(s.nextId) else None)
  {
    hide Run;
  }

  /** The rounds of a call go up by one, under the actor who accepted the operation. */
  function RoundAfter(was: Option<Outcome>, input: Id): Round {
    match was
    case Some(Dispatching(actor)) => Round(input, 1, Some(actor))
    case Some(InputResuming(round, _, _)) => Round(input, round.number + 1, round.reviewActor)
    case Some(ReviewResuming(round, _, _, _, _, _)) => Round(input, round.number + 1, round.reviewActor)
    case _ => Round(input, 1, None)
  }

  /** What is asked: the input itself, or the review of the delegated call. */
  function AskedOutcome(o: Owner, request: Request, pending: Pending, round: Round): Outcome {
    if pending.delegated.None? then InputWaiting(round, pending)
    else
      var child := Action(request.attachment, request.tool, request.arguments, Some(pending.delegated.value.subject));
      ReviewWaiting(round, child, o.digest(child), pending)
  }

  /** A tool called under an operation whose call or last reply let it be called may ask for input
      up to nine times; the request is stored, and its invocation waits for it. */
  lemma RoundsAreAsked(o: Owner, steps: seq<Step>, slot: nat, pending: Pending, lease: Option<Time>, published: bool)
    requires var s := Run(o, START, steps);
             && slot in s.invocations && s.invocations[slot].stage.Calling? && s.store.record.Some?
             && s.invocations[slot].retained == s.store.record && SameCall(s.store.record.value, s.invocations[slot].request)
             && s.store.record.value.binding.action == RootAction(s.invocations[slot].request)
    requires pending.delegated.Some? ==> pending.keys == {pending.delegated.value.key}
    ensures var s := Run(o, START, steps);
            var i, r := s.invocations[slot], s.store.record.value;
            var round := RoundAfter(Some(r.outcome), s.nextId);
            var asked := r.(outcome := AskedOutcome(o, i.request, pending, round));
            var after := Next(o, s, DoToolNeedsInput(slot, pending, true, lease, true, published));
            if (r.outcome.Dispatching? || r.outcome.InputResuming? || r.outcome.ReviewResuming?) && round.number <= 9 then
              && after.store == Store(Some(asked), s.store.log + [asked])
              && (if published then after.inputWaiting == Some((s.nextId, slot)) && after.invocations == s.invocations[slot := i.(stage := Awaiting(asked))]
                  else after.inputWaiting.None? && after.invocations == s.invocations - {slot})
            else after == s.(invocations := s.invocations - {slot}, nextId := s.nextId + 2)
  {
    RunKeepsInv(o, steps);
    RunAsksAscend(o, steps);
    var s := Run(o, START, steps);
    LastIsRecord(o, s);
    if IsResuming(s.store.record.value.outcome) { RoundIsPast(o, s); }
    hide Run, Inv, AsksAscend;
    RoundIsAsked(o, s, slot, pending, lease, published);
  }

  /** The round of a stored reply was asked under an earlier id. */
  lemma RoundIsPast(o: Owner, s: System)
    requires Inv(o, s) && AsksAscend(s.store.log, s.nextId) && s.store.record.Some? && IsResuming(s.store.record.value.outcome)
    ensures s.store.record.value.outcome.round.input < s.nextId
  {
    var log := s.store.log;
    var n := |log| - 1;
    assert !Starts(log, n) && Follows(log[n - 1], log[n]);
    assert Asks(log[n - 1].outcome) && RequestOf(log[n - 1]) == log[n].outcome.round.input;
  }

  lemma RoundIsAsked(o: Owner, s: System, slot: nat, pending: Pending, lease: Option<Time>, published: bool)
    requires slot in s.invocations && s.invocations[slot].stage.Calling? && s.store.record.Some?
    requires s.invocations[slot].retained == s.store.record && SameCall(s.store.record.value, s.invocations[slot].request)
    requires s.store.record.value.binding.action == RootAction(s.invocations[slot].request)
    requires pending.delegated.Some? ==> pending.keys == {pending.delegated.value.key}
    requires WellKept(o.digest, s.store.record.value)
    requires IsResuming(s.store.record.value.outcome) ==> s.store.record.value.outcome.round.input < s.nextId
    ensures var i, r := s.invocations[slot], s.store.record.value;
            var round := RoundAfter(Some(r.outcome), s.nextId);
            var asked := r.(outcome := AskedOutcome(o, i.request, pending, round));
            var after := NeedsInputStep(o, s, slot, pending, true, lease, true, published);
            if (r.outcome.Dispatching? || r.outcome.InputResuming? || r.outcome.ReviewResuming?) && round.number <= 9 then
              && after.store == Store(Some(asked), s.store.log + [asked])
              && (if published then after.inputWaiting == Some((s.nextId, slot)) && after.invocations == s.invocations[slot := i.(stage := Awaiting(asked))]
                  else after.inputWaiting.None? && after.invocations == s.invocations - {slot})
            else after == s.(invocations := s.invocations - {slot}, nextId := s.nextId + 2)
  {
    var i, r := s.invocations[slot], s.store.record.value;
    var asked := r.(outcome := AskedOutcome(o, i.request, pending, RoundAfter(Some(r.outcome), s.nextId)));
    if r.outcome.ExpiryResuming? { return; }
    assert AskedReview(o, s.store, s.now, s.nextId, i.request, pending, lease) == Some((s.store, asked));
    RoundIsSaved(o, s.store, asked, s.now);
    assert (s.invocations - {slot})[slot := i.(stage := Awaiting(asked))] == s.invocations[slot := i.(stage := Awaiting(asked))];
    hide AskedReview, SaveAllowed, WellKept;
  }

  lemma RoundIsSaved(o: Owner, store: Store, asked: Review, now: Time)
    requires store.record.Some? && asked.binding == store.record.value.binding && AsksForInput(asked.outcome)
    requires asked.outcome.round == RoundAfter(Some(store.record.value.outcome), asked.outcome.round.input)
    requires WellKept(o.digest, store.record.value) && DelegationOk(o.digest, asked.binding.action, asked.outcome)
    requires IsResuming(store.record.value.outcome) ==> store.record.value.outcome.round.input < asked.outcome.round.input
    ensures SaveAllowed(o.digest, store.record, asked, true, now)
       <==> (store.record.value.outcome.Dispatching? || IsResuming(store.record.value.outcome)) && asked.outcome.round.number <= 9
  {
    hide DelegationOk;
  }

  /** A call that belongs to no stored operation and asks for input begins one of its own, when its
      lease lives and the last operation has ended. */
  lemma FirstRoundsAreAsked(o: Owner, s: System, slot: nat, pending: Pending, supported: bool, lease: Option<Time>, published: bool)
    requires slot in s.invocations && s.invocations[slot].stage.Calling?
    requires s.store.record.Some? ==> !SameCall(s.store.record.value, s.invocations[slot].request)
    ensures var i, after := s.invocations[slot], Next(o, s, DoToolNeedsInput(slot, pending, supported, lease, true, published));
            var ended := s.store.record.None? || var was := s.store.record.value.outcome; was.Completed? || was.ExpiryCompleted? || was.Declined?;
            if !supported || (pending.delegated.Some? && pending.keys != {pending.delegated.value.key})
               || (i.retained.Some? && i.retained.value.outcome.ExpiryResuming?) || lease.None? || lease.value <= s.now || !ended
            then after == s.(invocations := s.invocations - {slot}, nextId := s.nextId + 2)
            else
              var action := Action(i.request.attachment, i.request.tool, i.request.arguments, None);
              var expires := if lease.value < s.now + LEASE then lease.value else s.now + LEASE;
              var asked := Review(Binding(o.turn, o.workId, i.request.native, s.nextId + 1, action, o.digest(action), expires),
                                  AskedOutcome(o, i.request, pending, Round(s.nextId, 1, None)));
              && after.store == Store(Some(asked), s.store.log + [asked])
              && (if published then after.inputWaiting == Some((s.nextId, slot)) && after.invocations == s.invocations[slot := i.(stage := Awaiting(asked))]
                  else after.inputWaiting.None? && after.invocations == s.invocations - {slot})
  {
    var i := s.invocations[slot];
    var asked := AskedReview(o, s.store, s.now, s.nextId, i.request, pending, lease);
    if asked.Some? && (pending.delegated.Some? ==> pending.keys == {pending.delegated.value.key}) {
      FirstRoundIsSaved(o, asked.value.1, s.now);
      assert (s.invocations - {slot})[slot := i.(stage := Awaiting(asked.value.1))] == s.invocations[slot := i.(stage := Awaiting(asked.value.1))];
    }
    hide SaveAllowed, SameCall;
  }

  lemma FirstRoundIsSaved(o: Owner, asked: Review, now: Time)
    requires AsksForInput(asked.outcome) && asked.outcome.round.number == 1 && asked.outcome.round.reviewActor.None?
    requires asked.binding.hash == o.digest(asked.binding.action) && DelegationOk(o.digest, asked.binding.action, asked.outcome)
    ensures SaveAllowed(o.digest, None, asked, true, now)
  {}

  /** What a call that returns brings about: under a grant or a reply, if its record is still the
      last thing stored, the operation completes under whoever let the tool be called last, or as
      expired; a plain call stores nothing. */
  lemma CallsComplete(o: Owner, steps: seq<Step>, slot: nat, result: string, works: bool)
    requires var s := Run(o, START, steps); slot in s.invocations && s.invocations[slot].stage.Calling?
    ensures var s := Run(o, START, steps);
            var i, after := s.invocations[slot], Next(o, s, DoToolReturned(slot, result, works));
            var left := s.(invocations := s.invocations - {slot});
            && (i.grant.None? && i.reply.None? ==> after == left)
            && ((i.grant.Some? || i.reply.Some?) && s.store.record.Some? && i.retained == s.store.record
                && (s.store.record.value.outcome.Dispatching? || HasReply(s.store.record.value.outcome)) ==>
                  var r := s.store.record.value;
                  var ended := r.(outcome := if r.outcome.ExpiryResuming? then ExpiryCompleted(result) else Completed(r.outcome.actor, result));
                  after == if works then left.(store := Store(Some(ended), s.store.log + [ended])) else left)
  {
    RunKeepsInv(o, steps);
    var s := Run(o, START, steps);
    if s.store.record.Some? { LastIsRecord(o, s); }
    hide Run, Inv;
  }

  /** The same for a call the caller makes itself with the grant it was handed. */
  lemma GrantedCallsComplete(o: Owner, steps: seq<Step>, grant: Grant, result: string, works: bool)
    ensures var s := Run(o, START, steps);
            var after := Next(o, s, DoComplete(grant, result, works));
            if works && s.store.record.Some? && s.store.record.value.binding.workId == o.workId
               && Grant(s.store.record.value.binding.id, s.store.record.value.binding.action) == grant && s.store.record.value.outcome.Dispatching?
            then
              var r := s.store.record.value;
              var ended := r.(outcome := Completed(r.outcome.actor, result));
              after == s.(store := Store(Some(ended), s.store.log + [ended]))
            else after == s
  {
    RunKeepsInv(o, steps);
    var s := Run(o, START, steps);
    if s.store.record.Some? { LastIsRecord(o, s); }
    hide Run, Inv;
  }

  /** A wait that is over before the operation is cancels its input, if it is no child review and
      the tool asked for that; every other wait that is over ends its invocation. */
  lemma WaitsExpire(o: Owner, steps: seq<Step>, slot: nat, works: bool)
    requires forall a | a in steps :: KeepsEntry(a)
    requires var s := Run(o, START, steps); slot in s.invocations && s.invocations[slot].stage.Awaiting?
    ensures var s := Run(o, START, steps);
            var i, after := s.invocations[slot], Next(o, s, DoExpire(slot, works));
            && s.store.record.Some? && AsksForInput(s.store.record.value.outcome)
            && var r := s.store.record.value;
               var pending := r.outcome.pending;
               var cancels := pending.cancelOnExpiry && r.outcome.InputWaiting?;
               var waits := if pending.deadline.None? || r.binding.expiresAt <= pending.deadline.value || (pending.cancelOnExpiry && r.outcome.ReviewWaiting?)
                            then r.binding.expiresAt else pending.deadline.value;
               var reply := Reply(pending, CancelAll(pending.keys));
               var cancelled := r.(outcome := ExpiryResuming(r.outcome.round, reply));
               if s.now < waits then after == s
               else if cancels && s.now < r.binding.expiresAt && works then
                 after.store == Store(Some(cancelled), s.store.log + [cancelled]) && GoesOn(s, after, slot, reply)
               else after == s.(inputWaiting := None, invocations := s.invocations - {slot})
  {
    RunKeepsInv(o, steps);
    RunKeepsAwaits(o, steps);
    var s := Run(o, START, steps);
    assert IsAwaited(s, slot);
    LastIsRecord(o, s);
    hide Run, Inv, AwaitsOk;
    var i := s.invocations[slot];
    var resumed := i.(reply := Some(Reply(s.store.record.value.outcome.pending, CancelAll(s.store.record.value.outcome.pending.keys))), stage := Resumed);
    assert (s.invocations - {slot})[slot := resumed] == s.invocations[slot := resumed];
  }

  // ---------- Operations that run to their end ----------

  /** How the input the tool asks for is given: by an answer, by the decision on a child review,
      or by the expiry that cancels it. */
  datatype Way = ByAnswer(responses: map<string, Answer>) | ByChild(decision: Decision) | ByExpiry

  /** An operation `ann` accepts under a lease that ends at `lease`; the tool asks for input,
      which is given, where by someone then by `bob`, and the tool finishes. */
  datatype Story = Story(
    request: Request, lease: Time, pending: Pending, way: Way, ann: string, bob: string, result: string)

  predicate IsStory(t: Story) {
    && t.lease > 0 && (t.pending.deadline.Some? ==> t.pending.deadline.value > 0)
    && match t.way
       case ByAnswer(responses) => t.pending.delegated.None? && responses.Keys == t.pending.keys
       case ByChild(decision) =>
         t.pending.delegated.Some? && t.pending.keys == {t.pending.delegated.value.key} && !decision.OtherDecision?
       case ByExpiry =>
         && t.pending.delegated.None? && t.pending.cancelOnExpiry
         && t.pending.deadline.Some? && t.pending.deadline.value < Earlier(t.lease, LEASE)
  }

  function FirstBinding(o: Owner, t: Story): Binding {
    var action := RootAction(t.request);
    Binding(o.turn, o.workId, t.request.native, 0, action, o.digest(action), Earlier(t.lease, LEASE))
  }

  function AcceptOf(o: Owner, b: Binding, actor: string): Approval {
    Approval(o.session, o.turn, b.id, b.hash, Accept, actor, false)
  }

  function ChildOf(t: Story): Action
    requires t.pending.delegated.Some?
  {
    RootAction(t.request).(subject := Some(t.pending.delegated.value.subject))
  }

  function Given(o: Owner, t: Story): Step
    requires IsStory(t)
  {
    match t.way
    case ByAnswer(responses) => DoRespond(InputResponse(o.session, o.turn, 1, false, Some(responses), true, t.bob), true)
    case ByChild(decision) => DoDecide(Approval(o.session, o.turn, 1, o.digest(ChildOf(t)), decision, t.bob, false), true)
    case ByExpiry => DoExpire(0, true)
  }

  /** When it is given. */
  function GivenAt(t: Story): Time
    requires IsStory(t)
  {
    if t.way.ByExpiry? then t.pending.deadline.value else 0
  }

  function StorySteps(o: Owner, t: Story): seq<Step>
    requires IsStory(t)
  {
    var b := FirstBinding(o, t);
    [DoAskApproval(t.request, Some(t.lease), true, true), DoDecide(AcceptOf(o, b, t.ann), true),
     DoInvoke(0, t.request, Some(Grant(0, b.action)), None), DoToolNeedsInput(0, t.pending, true, Some(t.lease), true, true),
     DoTick(GivenAt(t)), Given(o, t), DoContinue(0), DoToolReturned(0, t.result, true)]
  }

  function ReplyOf(t: Story): Reply
    requires IsStory(t)
  {
    match t.way
    case ByAnswer(responses) => Reply(t.pending, responses)
    case ByChild(decision) => Reply(t.pending, ChildResponses(t.pending.delegated.value.key, decision, 1, ChildOf(t)))
    case ByExpiry => Reply(t.pending, CancelAll(t.pending.keys))
  }

  function StoryLog(o: Owner, t: Story): seq<Review>
    requires IsStory(t)
  {
    var b, round := FirstBinding(o, t), Round(1, 1, Some(t.ann));
    [Review(b, Waiting), Review(b, Dispatching(t.ann))]
    + match t.way
      case ByAnswer(_) =>
        [Review(b, InputWaiting(round, t.pending)), Review(b, InputResuming(round, ReplyOf(t), t.bob)), Review(b, Completed(t.bob, t.result))]
      case ByChild(decision) =>
        [Review(b, ReviewWaiting(round, ChildOf(t), o.digest(ChildOf(t)), t.pending)),
         Review(b, ReviewResuming(round, ChildOf(t), o.digest(ChildOf(t)), ReplyOf(t), t.bob, decision)), Review(b, Completed(t.bob, t.result))]
      case ByExpiry =>
        [Review(b, InputWaiting(round, t.pending)), Review(b, ExpiryResuming(round, ReplyOf(t))), Review(b, ExpiryCompleted(t.result))]
  }

  predicate Reached(o: Owner, t: Story, s: System, changes: nat, stage: Option<Stage>, now: Time)
    requires IsStory(t) && 0 < changes <= 5
  {
    && s.store == Store(Some(StoryLog(o, t)[changes - 1]), StoryLog(o, t)[..changes]) && s.now == now
    && (stage.Some? ==>
          && 0 in s.invocations && s.invocations[0].stage == stage.value && s.invocations[0].request == t.request
          && s.invocations[0].grant == Some(Grant(0, RootAction(t.request))))
  }

  lemma StoryIsAccepted(o: Owner, t: Story)
    requires IsStory(t)
    ensures var s := Next(o, Next(o, START, StorySteps(o, t)[0]), StorySteps(o, t)[1]);
            Reached(o, t, s, 2, None, 0) && s.nextId == 1 && s.invocations == map[] && s.dispatches == []
  {
    var asked := Next(o, START, StorySteps(o, t)[0]);
    assert asked.store == Store(Some(StoryLog(o, t)[0]), StoryLog(o, t)[..1]) && asked.nextId == 1;
  }

  lemma StoryCalls(o: Owner, t: Story, s: System)
    requires IsStory(t) && Reached(o, t, s, 2, None, 0) && s.nextId == 1 && s.invocations == map[]
    ensures var after := Next(o, s, StorySteps(o, t)[2]);
            && Reached(o, t, after, 2, Some(Calling), 0) && after.nextId == 1 && after.invocations[0].retained == Some(StoryLog(o, t)[1])
            && after.dispatches == s.dispatches + [Dispatch(t.request, Some(Grant(0, RootAction(t.request))), None, Some(StoryLog(o, t)[1]), 2)]
  {}

  lemma StoryAsksForInput(o: Owner, t: Story, s: System)
    requires IsStory(t) && Reached(o, t, s, 2, Some(Calling), 0) && s.nextId == 1 && s.invocations[0].retained == Some(StoryLog(o, t)[1])
    ensures var after := Next(o, s, StorySteps(o, t)[3]);
            && Reached(o, t, after, 3, Some(Awaiting(StoryLog(o, t)[2])), 0) && after.inputWaiting == Some((1, 0))
            && after.dispatches == s.dispatches
  {
    var asked := AskedReview(o, s.store, s.now, 1, t.request, t.pending, Some(t.lease));
    assert asked == Some((s.store, StoryLog(o, t)[2]));
    hide AskedReview;
    assert SaveSucceeds(o.digest, s.store, StoryLog(o, t)[2], true, 0, true);
    hide SaveSucceeds;
  }

  lemma StoryIsGiven(o: Owner, t: Story, s: System)
    requires IsStory(t) && Reached(o, t, s, 3, Some(Awaiting(StoryLog(o, t)[2])), GivenAt(t)) && s.inputWaiting == Some((1, 0))
    ensures var after := Next(o, s, StorySteps(o, t)[5]);
            && Reached(o, t, after, 4, Some(Resumed), GivenAt(t)) && after.invocations[0].reply == Some(ReplyOf(t))
            && after.dispatches == s.dispatches
  {
    match t.way
    case ByAnswer(_) => AnswerIsGiven(o, t, s);
    case ByChild(_) => ChildIsDecided(o, t, s);
    case ByExpiry => InputExpires(o, t, s);
  }

  lemma AnswerIsGiven(o: Owner, t: Story, s: System)
    requires IsStory(t) && t.way.ByAnswer?
    requires Reached(o, t, s, 3, Some(Awaiting(StoryLog(o, t)[2])), 0) && s.inputWaiting == Some((1, 0))
    ensures var after := Next(o, s, Given(o, t));
            && Reached(o, t, after, 4, Some(Resumed), 0) && after.invocations[0].reply == Some(ReplyOf(t)) && after.dispatches == s.dispatches
  {
    hide NeedsInputStep, DecideStep, ExpireStep, ToolReturnedStep, ContinuationOk, CancelStep;
    var log, response := StoryLog(o, t), Given(o, t).response;
    assert InputReply(o, s.store, response, 0) == Some((log[2], ReplyOf(t)));
    assert SaveSucceeds(o.digest, s.store, log[3], true, 0, true);
  }

  lemma ChildIsDecided(o: Owner, t: Story, s: System)
    requires IsStory(t) && t.way.ByChild?
    requires Reached(o, t, s, 3, Some(Awaiting(StoryLog(o, t)[2])), 0) && s.inputWaiting == Some((1, 0))
    ensures var after := Next(o, s, Given(o, t));
            && Reached(o, t, after, 4, Some(Resumed), 0) && after.invocations[0].reply == Some(ReplyOf(t)) && after.dispatches == s.dispatches
  {
    hide NeedsInputStep, RespondStep, ExpireStep, ToolReturnedStep, ContinuationOk, CancelStep;
    var log, approval := StoryLog(o, t), Given(o, t).approval;
    assert Addressed(o, s.store, approval, 0) == Some(log[2]) && ChildDecided(log[2], approval) == log[3];
    assert SaveSucceeds(o.digest, s.store, log[3], true, 0, true);
  }

  lemma InputExpires(o: Owner, t: Story, s: System)
    requires IsStory(t) && t.way.ByExpiry?
    requires Reached(o, t, s, 3, Some(Awaiting(StoryLog(o, t)[2])), GivenAt(t)) && s.inputWaiting == Some((1, 0))
    ensures var after := Next(o, s, Given(o, t));
            && Reached(o, t, after, 4, Some(Resumed), GivenAt(t)) && after.invocations[0].reply == Some(ReplyOf(t)) && after.dispatches == s.dispatches
  {
    hide NeedsInputStep, RespondStep, DecideStep, ToolReturnedStep, ContinuationOk;
    var log := StoryLog(o, t);
    assert SaveSucceeds(o.digest, s.store, log[3], false, GivenAt(t), true);
  }

  lemma StoryContinues(o: Owner, t: Story, s: System)
    requires IsStory(t) && Reached(o, t, s, 4, Some(Resumed), GivenAt(t)) && s.invocations[0].reply == Some(ReplyOf(t))
    ensures var after := Next(o, s, StorySteps(o, t)[6]);
            && Reached(o, t, after, 4, Some(Calling), GivenAt(t)) && after.invocations[0].retained == Some(StoryLog(o, t)[3])
            && after.invocations[0].reply == Some(ReplyOf(t))
            && after.dispatches
               == s.dispatches + [Dispatch(t.request, Some(Grant(0, RootAction(t.request))), Some(ReplyOf(t)), Some(StoryLog(o, t)[3]), 4)]
  {
    hide NeedsInputStep, RespondStep, DecideStep, ExpireStep, ToolReturnedStep, CancelStep;
    assert MayDispatch(o, s.store, t.request, s.invocations[0].grant, Some(ReplyOf(t)), GivenAt(t));
  }

  lemma StoryCompletes(o: Owner, t: Story, s: System)
    requires IsStory(t) && Reached(o, t, s, 4, Some(Calling), GivenAt(t))
    requires s.invocations[0].retained == Some(StoryLog(o, t)[3]) && s.invocations[0].reply == Some(ReplyOf(t))
    ensures var after := Next(o, s, StorySteps(o, t)[7]);
            Reached(o, t, after, 5, None, GivenAt(t)) && after.dispatches == s.dispatches
  {
    hide InputReply, NeedsInputStep, DecideStep, RespondStep, ExpireStep, LoopTop;
    var log := StoryLog(o, t);
    assert SaveSucceeds(o.digest, s.store, log[4], false, GivenAt(t), true);
  }

  lemma RunSteps(o: Owner, steps: seq<Step>, k: nat)
    requires k < |steps|
    ensures Run(o, START, steps[..k + 1]) == Next(o, Run(o, START, steps[..k]), steps[k])
  {
    assert steps[..k + 1][..k] == steps[..k];
  }

  lemma StoryRunsUntilInput(o: Owner, t: Story)
    requires IsStory(t)
    ensures var s := Run(o, START, StorySteps(o, t)[..5]);
            && Reached(o, t, s, 3, Some(Awaiting(StoryLog(o, t)[2])), GivenAt(t)) && s.inputWaiting == Some((1, 0))
            && s.dispatches == [Dispatch(t.request, Some(Grant(0, RootAction(t.request))), None, Some(StoryLog(o, t)[1]), 2)]
  {
    hide Next, StoryLog, IsStory;
    var steps := StorySteps(o, t);
    assert steps[..0] == [] && Run(o, START, steps[..0]) == START;
    RunSteps(o, steps, 0);
    RunSteps(o, steps, 1);
    RunSteps(o, steps, 2);
    RunSteps(o, steps, 3);
    RunSteps(o, steps, 4);
    hide Run, StorySteps;
    StoryIsAccepted(o, t);
    StoryCalls(o, t, Run(o, START, steps[..2]));
    StoryAsksForInput(o, t, Run(o, START, steps[..3]));
    StoryTicks(o, t, Run(o, START, steps[..4]));
  }

  lemma StoryTicks(o: Owner, t: Story, s: System)
    requires IsStory(t) && Reached(o, t, s, 3, Some(Awaiting(StoryLog(o, t)[2])), 0)
    ensures Next(o, s, StorySteps(o, t)[4]) == s.(now := GivenAt(t))
  {}

  /** Such an operation runs to its end: the tool is called once under the grant, and again with
      exactly the reply that was stored, whether somebody answered, a child review was accepted
      or declined, or the input expired; and it completes. */
  lemma StoryRuns(o: Owner, t: Story)
    requires IsStory(t)
    ensures var s, log, grant := Run(o, START, StorySteps(o, t)), StoryLog(o, t), Some(Grant(0, RootAction(t.request)));
            && Reached(o, t, s, 5, None, GivenAt(t))
            && s.dispatches == [Dispatch(t.request, grant, None, Some(log[1]), 2), Dispatch(t.request, grant, Some(ReplyOf(t)), Some(log[3]), 4)]
  {
    hide Next, Reached, StoryLog, IsStory;
    var steps := StorySteps(o, t);
    assert steps == steps[..8];
    StoryRunsUntilInput(o, t);
    RunSteps(o, steps, 5);
    RunSteps(o, steps, 6);
    RunSteps(o, steps, 7);
    hide Run;
    StoryIsGiven(o, t, Run(o, START, steps[..5]));
    StoryContinues(o, t, Run(o, START, steps[..6]));
    StoryCompletes(o, t, Run(o, START, steps[..7]));
  }

  /** After the run in which `ann` accepted and `bob` answered, `ann` is refused when repeating
      the accept, and `bob` is taken for having accepted. */
  lemma ApproverMayBeRefused(o: Owner, t: Story, works: bool)
    requires IsStory(t) && t.way.ByAnswer? && t.ann != t.bob
    ensures var s := Run(o, START, StorySteps(o, t));
            && s.store.log == StoryLog(o, t)
            && DecideStep(o, s, AcceptOf(o, FirstBinding(o, t), t.ann), works).1.Rejected?
            && DecideStep(o, s, AcceptOf(o, FirstBinding(o, t), t.bob), works).1.Repeated?
  {
    StoryRuns(o, t);
    hide Run, StorySteps;
  }

  // ---------- The owner as the object a turn holds ----------

  class HarnessMcpReview {
    const owner: Owner
    var record: Option<Review>
    var nextId: Id
    var now: Time
    var waiting: Option<Id>
    var inputWaiting: Option<(Id, nat)>
    var invocations: map<nat, Invocation>
    ghost var log: seq<Review>
    ghost var dispatches: seq<Dispatch>
    ghost var granted: seq<Grant>

    ghost function State(): System
      reads this
    {
      System(Store(record, log), nextId, now, waiting, inputWaiting, invocations, dispatches, granted)
    }

    constructor (owner: Owner)
      ensures State() == START && this.owner == owner
    {
      this.owner := owner;
      record, nextId, now, waiting, inputWaiting, invocations := None, 0, 0, None, None, map[];
      log, dispatches, granted := [], [], [];
    }

    /** The state file's part of a save. */
    method SaveMcpReview(next: Review, event: bool, works: bool) returns (saved: bool)
      modifies this`record, this`log
      ensures saved == SaveSucceeds(owner.digest, Store(old(record), old(log)), next, event, now, works)
      ensures Store(record, log) == Save(owner.digest, Store(old(record), old(log)), next, event, now, works)
    {
      if !SaveAllowed(owner.digest, record, next, event, now) || !works { return false; }
      if record != Some(next) { log := log + [next]; }
      record := Some(next);
      return true;
    }

    method StartOperation(id: Id, request: Request, outcome: Outcome, lease: Option<Time>) returns (review: Option<Review>)
      modifies this`record
      ensures review == NewOperation(owner, old(State()).store, now, id, request, outcome, lease)
      ensures record == if review.None? then old(record) else None
    {
      if lease.None? || lease.value <= now { return None; }
      if record.Some? {
        if !IsTerminal(record.value.outcome) { return None; }
        record := None;
      }
      var action := RootAction(request);
      var expiresAt := Earlier(lease.value, now + LEASE);
      return Some(Review(Binding(owner.turn, owner.workId, request.native, id, action, owner.digest(action), expiresAt), outcome));
    }

    method AskApproval(request: Request, lease: Option<Time>, works: bool, published: bool)
      modifies this
      ensures State() == AskApprovalStep(owner, old(State()), request, lease, works, published)
    {
      var review := StartOperation(nextId, request, Waiting, lease);
      if review.None? { return; }
      var id := nextId;
      nextId := nextId + 1;
      var saved := SaveMcpReview(review.value, true, works);
      if saved { waiting := if published then Some(id) else None; }
    }

    /** Hands the reply to the invocation that waits for it. */
    method ResolveInput(input: Id, reply: Reply)
      modifies this`inputWaiting, this`invocations
      ensures State() == Resolved(old(State()), input, reply)
    {
      if inputWaiting.None? || inputWaiting.value.0 != input { return; }
      var slot := inputWaiting.value.1;
      inputWaiting := None;
      if slot in invocations {
        invocations := invocations[slot := invocations[slot].(reply := Some(reply), stage := Resumed)];
      }
    }

    method Decide(a: Approval, works: bool) returns (reception: Reception)
      modifies this
      ensures (State(), reception) == DecideStep(owner, old(State()), a, works)
      ensures !reception.Taken? ==> State() == old(State())
    {
      var found := Addressed(owner, Store(record, []), a, now);
      assert found == Addressed(owner, Store(record, log), a, now);
      if found.None? { return Rejected; }
      var r := found.value;
      if r.outcome.ReviewWaiting? {
        reception := DecideDelegated(r, a, works);
        return;
      }
      if !r.outcome.Waiting? { return Repeated; }
      var next := Decided(r, a);
      var saved := SaveMcpReview(next, true, works);
      if !saved { return Rejected; }
      if waiting == Some(r.binding.id) {
        waiting := None;
        if a.decision.Accept? { granted := granted + [Grant(r.binding.id, r.binding.action)]; }
      }
      return Taken;
    }

    method DecideDelegated(r: Review, a: Approval, works: bool) returns (reception: Reception)
      requires r.outcome.ReviewWaiting?
      modifies this
      ensures (State(), reception) == ChildDecideStep(owner, old(State()), r, a, works)
    {
      if r.outcome.pending.delegated.None? { return Rejected; }
      var next := ChildDecided(r, a);
      var saved := SaveMcpReview(next, true, works);
      if !saved { return Rejected; }
      ResolveInput(r.outcome.round.input, next.outcome.reply);
      return Taken;
    }

    method RespondToInput(a: InputResponse, works: bool) returns (reception: Reception)
      modifies this
      ensures (State(), reception) == RespondStep(owner, old(State()), a, works)
    {
      var found := InputReply(owner, Store(record, []), a, now);
      assert found == InputReply(owner, Store(record, log), a, now);
      if found.None? { return Rejected; }
      var (r, reply) := found.value;
      if r.outcome.InputResuming? {
        return if r.outcome.actor == a.actor && r.outcome.reply == reply then Repeated else Rejected;
      }
      var saved := SaveMcpReview(r.(outcome := InputResuming(r.outcome.round, reply, a.actor)), true, works);
      if !saved { return Rejected; }
      ResolveInput(a.request, reply);
      return Taken;
    }

    method Complete(grant: Grant, result: string, works: bool)
      modifies this
      ensures State() == CompleteStep(owner, old(State()), grant, result, works)
    {
      if record.None? { return; }
      var r := record.value;
      if r.binding.workId != owner.workId || r.binding.id != grant.id || r.binding.action != grant.action || !r.outcome.Dispatching? { return; }
      var _ := SaveMcpReview(r.(outcome := Completed(r.outcome.actor, result)), false, works);
    }

    /** One pass of the loop up to the call of the tool. */
    method EnterLoop(slot: nat, request: Request, permit: Option<Grant>, reply: Option<Reply>) returns (calls: bool)
      modifies this`invocations, this`dispatches
      ensures State() == LoopTop(owner, old(State()), slot, request, permit, reply)
      ensures calls == MayDispatch(owner, State().store, request, permit, reply, now)
    {
      if reply.None? && permit.None? {
        calls := record.None? || !SameCall(record.value, request);
      } else {
        calls := record.Some? && ContinuationOk(owner, record.value, request, permit, reply, now);
      }
      if calls {
        invocations := invocations[slot := Invocation(request, permit, reply, record, Calling)];
        dispatches := dispatches + [Dispatch(request, permit, reply, record, |log|)];
      } else {
        invocations := invocations - {slot};
      }
    }

    method Continue(slot: nat)
      modifies this`invocations, this`dispatches
      ensures State() == Next(owner, old(State()), DoContinue(slot))
    {
      if slot in invocations && invocations[slot].stage.Resumed? {
        var _ := EnterLoop(slot, invocations[slot].request, invocations[slot].grant, invocations[slot].reply);
      }
    }

    method ToolReturned(slot: nat, result: string, works: bool)
      modifies this
      ensures State() == ToolReturnedStep(owner, old(State()), slot, result, works)
    {
      if slot !in invocations || !invocations[slot].stage.Calling? { return; }
      var i := invocations[slot];
      invocations := invocations - {slot};
      if i.retained.None? || (i.reply.None? && i.grant.None?) { return; }
      var r := i.retained.value;
      if r.outcome.ExpiryResuming? {
        var _ := SaveMcpReview(r.(outcome := ExpiryCompleted(result)), false, works);
      } else if r.outcome.Dispatching? || IsResuming(r.outcome) {
        var _ := SaveMcpReview(r.(outcome := Completed(r.outcome.actor, result)), false, works);
      }
    }

    /** The next round of the call, or the first one of a new operation. */
    method PrepareRound(request: Request, pending: Pending, lease: Option<Time>, input: Id) returns (review: Option<Review>)
      modifies this`record
      ensures match AskedReview(owner, old(State()).store, now, input, request, pending, lease)
              case None => review.None? && record == old(record)
              case Some((over, asked)) => review == Some(asked) && Store(record, log) == over
    {
      var outcome := InputOutcome(owner, request, pending, NextRound(PriorRound(record, request), input));
      if record.Some? && SameCall(record.value, request) {
        review := Some(record.value.(outcome := outcome));
      } else {
        review := StartOperation(input + 1, request, outcome, lease);
      }
    }

    method ToolNeedsInput(slot: nat, pending: Pending, supported: bool, lease: Option<Time>, works: bool, published: bool)
      modifies this
      ensures State() == NeedsInputStep(owner, old(State()), slot, pending, supported, lease, works, published)
      ensures dispatches == old(dispatches) && granted == old(granted)
    {
      hide AwaitStep, AskedReview, DelegationAsks;
      if slot !in invocations || !invocations[slot].stage.Calling? { return; }
      var i, input := invocations[slot], nextId;
      invocations := invocations - {slot};
      nextId := nextId + 2;
      if i.retained.Some? && i.retained.value.outcome.ExpiryResuming? { return; }
      if !supported || !DelegationAsks(pending) { return; }
      var review := PrepareRound(i.request, pending, lease, input);
      if review.None? { return; }
      AwaitInput(slot, i, review.value, input, works, published);
    }

    method AwaitInput(slot: nat, i: Invocation, review: Review, input: Id, works: bool, published: bool)
      modifies this`record, this`log, this`inputWaiting, this`invocations
      ensures State() == AwaitStep(owner, old(State()), slot, i, review, input, works, published)
    {
      hide Save, Saved, SaveSucceeds;
      SavedIsSave(owner.digest, Store(record, log), review, true, now, works);
      var saved := SaveMcpReview(review, true, works);
      if !saved { return; }
      if !published { inputWaiting := None; return; }
      inputWaiting := Some((input, slot));
      invocations := invocations[slot := i.(stage := Awaiting(review))];
    }

    /** The timer of a wait, when it may end it. */
    method Expire(slot: nat, works: bool)
      modifies this
      ensures State() == ExpireStep(owner, old(State()), slot, works)
      ensures dispatches == old(dispatches) && granted == old(granted)
    {
      hide CancelStep, OperationExpiry, PlatformReleases;
      if slot !in invocations || !invocations[slot].stage.Awaiting? || !AsksForInput(invocations[slot].stage.asked.outcome) { return; }
      var i := invocations[slot];
      var asked := i.stage.asked;
      if (if PlatformReleases(asked) then asked.binding.expiresAt else OperationExpiry(asked)) > now { return; }
      inputWaiting, invocations := None, invocations - {slot};
      if PlatformReleases(asked) || !asked.outcome.pending.cancelOnExpiry || asked.binding.expiresAt <= now { return; }
      CancelInputs(slot, i, works);
    }

    method CancelInputs(slot: nat, i: Invocation, works: bool)
      requires i.stage.Awaiting? && AsksForInput(i.stage.asked.outcome)
      modifies this`record, this`log, this`invocations
      ensures State() == CancelStep(owner, old(State()), slot, i, works)
    {
      hide Save, Saved, SaveSucceeds;
      var asked := i.stage.asked;
      var reply := Reply(asked.outcome.pending, CancelAll(asked.outcome.pending.keys));
      var next := asked.(outcome := ExpiryResuming(asked.outcome.round, reply));
      SavedIsSave(owner.digest, Store(record, log), next, false, now, works);
      var saved := SaveMcpReview(next, false, works);
      if saved { invocations := invocations[slot := i.(reply := Some(reply), stage := Resumed)]; }
    }
  }
}
