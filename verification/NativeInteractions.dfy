/** The owner of a native conversation's callbacks: one request at a time out of a queue,
    each settled once, with a bounded memory of the responses already taken. */
module NativeInteractions {
  import opened Options

  type Id = nat

  datatype Kind = ApprovalKind | InputKind

  /** What a native callback asks for, whether its binding and parameters pass their checks,
      and the form schema an answer must fit.  An approval that names a root to grant is
      suspended between those checks and its wait. */
  datatype Operation =
    | Approval(bound: bool, suspends: bool, actionHash: string, allowed: set<string>, takesFeedback: bool)
    | Questions(bound: bool, fits: string -> bool)
    | Form(bound: bool, fits: string -> bool)

  predicate Suspends(operation: Operation) { operation.Approval? && operation.suspends }

  /** An approval without a decision to offer fails instead of asking. */
  predicate CanAsk(operation: Operation) { operation.Approval? ==> operation.allowed != {} }

  /** A request under way. */
  datatype Request = Request(operation: Operation, id: Id, expires: int)

  /** The operation at the head of the queue: not begun, suspended after its
      checks, or waiting. */
  datatype Stage = Queued | Prepared | Waiting

  datatype Response = Response(
    kind: Kind, session: string, turn: Option<string>, request: Id, actor: string,
    actionHash: string, decision: string, cancelled: bool, value: string, feedback: Option<string>)

  datatype Settlement = Answered(response: Response) | Lost

  datatype Settled = Settled(request: Request, how: Settlement)

  datatype State = State(
    closed: bool, count: nat, outstanding: nat, queue: seq<Operation>, stage: Stage, pending: Option<Request>,
    resolved: seq<Response>, nextId: Id, settled: seq<Settled>)

  const LIMIT := 128

  const START := State(false, 0, 0, [], Queued, None, [], 0, [])

  /** The session, and the turn that owns the callbacks unless the session itself does. */
  datatype Owner = Owner(session: string, turn: Option<string>)

  // ---------- The queue ----------

  function Enqueue(o: Owner, s: State, operation: Operation): State {
    if o.turn.Some? then
      var counted := s.(count := s.count + 1);
      if counted.count > LIMIT then counted
      else counted.(outstanding := s.outstanding + 1, queue := s.queue + [operation])
    else if !operation.Form? || s.outstanding >= LIMIT then s
    else s.(outstanding := s.outstanding + 1, queue := s.queue + [operation])
  }

  function Finish(s: State): State
    requires s.queue != []
  {
    s.(outstanding := if s.outstanding > 0 then s.outstanding - 1 else 0, queue := s.queue[1..], stage := Queued)
  }

  /** The head operation begins: its binding must hold and the owner must be open.  Unless
      it is suspended, it asks at once. */
  function Begin(s: State, expires: int, aborted: bool, published: bool): State {
    if s.queue == [] || !s.stage.Queued? then s
    else if !s.queue[0].bound || s.closed then Finish(s)
    else if Suspends(s.queue[0]) then s.(stage := Prepared)
    else Ask(s, expires, aborted, published)
  }

  /** The suspended operation goes on. */
  function Continue(s: State, expires: int, aborted: bool, published: bool): State {
    if s.queue == [] || !s.stage.Prepared? then s else Ask(s, expires, aborted, published)
  }

  /** The head publishes its request and waits; `published` is false when the journal refuses it. */
  function Ask(s: State, expires: int, aborted: bool, published: bool): State
    requires s.queue != []
  {
    if aborted || !CanAsk(s.queue[0]) then Finish(s)
    else
      var asked := s.(pending := Some(Request(s.queue[0], s.nextId, expires)), stage := Waiting, nextId := s.nextId + 1);
      if published then asked else Settle(asked, Lost)
  }

  function Settle(s: State, how: Settlement): State
    requires s.pending.Some? && s.queue != []
  {
    Finish(s).(pending := None, settled := s.settled + [Settled(s.pending.value, how)])
  }

  /** An expiry, an abort or a dead provider. */
  function Lose(s: State): State {
    if s.pending.None? || s.queue == [] then s else Settle(s, Lost)
  }

  function Close(s: State): State { Lose(s.(closed := true)) }

  // ---------- Responses ----------

  predicate IsBound(o: Owner, s: State, r: Response) {
    !s.closed && r.session == o.session && r.turn == o.turn && r.actor != ""
  }

  /** The remembered response to a request. */
  function Recall(resolved: seq<Response>, id: Id): Option<Response> {
    if resolved == [] then None
    else if resolved[|resolved| - 1].request == id then Some(resolved[|resolved| - 1])
    else Recall(resolved[..|resolved| - 1], id)
  }

  function Remember(resolved: seq<Response>, r: Response): seq<Response> {
    var all := resolved + [r];
    if |all| > LIMIT then all[1..] else all
  }

  predicate Answers(q: Request, r: Response, now: int) {
    && q.id == r.request && q.expires > now
    && match q.operation
       case Approval(_, _, actionHash, allowed, takesFeedback) =>
         r.kind.ApprovalKind? && actionHash == r.actionHash && r.decision in allowed && (r.feedback.Some? ==> takesFeedback)
       case Questions(_, fits) => r.kind.InputKind? && (r.cancelled || fits(r.value))
       case Form(_, fits) => r.kind.InputKind? && (r.cancelled || fits(r.value))
  }

  /** The response is one the operation asked for: an approval's hash and one of its decisions,
      or a value of the form. */
  predicate Fits(operation: Operation, r: Response) {
    match r.kind
    case ApprovalKind =>
      && operation.Approval? && r.actionHash == operation.actionHash && r.decision in operation.allowed
      && (r.feedback.None? || operation.takesFeedback)
    case InputKind => !operation.Approval? && (r.cancelled || operation.fits(r.value))
  }

  datatype Reception = Repeated | Accepted | Rejected

  function Receive(o: Owner, s: State, r: Response, now: int, emitted: bool): (State, Reception) {
    if !IsBound(o, s, r) then (s, Rejected)
    else if Recall(s.resolved, r.request) == Some(r) then (s, Repeated)
    else if s.pending.None? || s.queue == [] || !Answers(s.pending.value, r, now) || !emitted then (s, Rejected)
    else (Settle(s.(resolved := Remember(s.resolved, r)), Answered(r)), Accepted)
  }

  // ---------- Runs ----------

  datatype Action =
    | DoEnqueue(operation: Operation)
    | DoBegin(expires: int, aborted: bool, published: bool)
    | DoContinue(expires: int, aborted: bool, published: bool)
    | DoReceive(response: Response, now: int, emitted: bool)
    | DoLose
    | DoClose

  function Step(o: Owner, s: State, a: Action): State {
    match a
    case DoEnqueue(operation) => Enqueue(o, s, operation)
    case DoBegin(expires, aborted, published) => Begin(s, expires, aborted, published)
    case DoContinue(expires, aborted, published) => Continue(s, expires, aborted, published)
    case DoReceive(response, now, emitted) => Receive(o, s, response, now, emitted).0
    case DoLose => Lose(s)
    case DoClose => Close(s)
  }

  function Run(o: Owner, s: State, actions: seq<Action>): State
    decreases |actions|
  {
    if actions == [] then s else Step(o, Run(o, s, actions[..|actions| - 1]), actions[|actions| - 1])
  }

  // ---------- What every run keeps ----------

  /** The responses that were taken, in order. */
  function TakenFrom(settled: seq<Settled>): seq<Response> {
    if settled == [] then []
    else
      var last := settled[|settled| - 1];
      TakenFrom(settled[..|settled| - 1]) + if last.how.Answered? then [last.how.response] else []
  }

  function Newest(all: seq<Response>): seq<Response> { if |all| <= LIMIT then all else all[|all| - LIMIT..] }

  ghost predicate Inv(o: Owner, s: State) {
    && s.outstanding == |s.queue|
    && (s.pending.Some? <==> s.stage.Waiting?) && (!s.stage.Queued? ==> s.queue != [])
    && (s.stage.Prepared? ==> s.queue[0].bound && Suspends(s.queue[0]))
    && (s.pending.Some? ==> s.pending.value.id == |s.settled| && s.pending.value.operation == s.queue[0])
    && s.nextId == |s.settled| + (if s.pending.Some? then 1 else 0)
    && SettledOk(s.settled)
    && s.resolved == Newest(TakenFrom(s.settled))
    && (o.turn.Some? ==> |s.settled| + |s.queue| <= Capped(s.count))
  }

  function Capped(n: nat): nat { if n < LIMIT then n else LIMIT }

  /** Requests settle in the order they were issued, and an answer is the answer to its id. */
  ghost predicate SettledOk(settled: seq<Settled>) {
    forall i | 0 <= i < |settled| ::
      settled[i].request.id == i && (settled[i].how.Answered? ==> settled[i].how.response.request == i && Fits(settled[i].request.operation, settled[i].how.response))
  }

  lemma TakenGrows(settled: seq<Settled>, x: Settled)
    ensures TakenFrom(settled + [x]) == TakenFrom(settled) + if x.how.Answered? then [x.how.response] else []
  {
    assert (settled + [x])[..|settled|] == settled;
  }

  lemma NewestGrows(all: seq<Response>, r: Response)
    ensures Remember(Newest(all), r) == Newest(all + [r])
  {}

  lemma {:induction false} TakenIsShorter(settled: seq<Settled>)
    ensures |TakenFrom(settled)| <= |settled|
  {
    if settled != [] { TakenIsShorter(settled[..|settled| - 1]); }
  }

  lemma SettleKeepsInv(o: Owner, s: State, how: Settlement)
    requires Inv(o, s) && s.pending.Some?
    requires how.Answered? ==> how.response.request == s.pending.value.id && Fits(s.pending.value.operation, how.response)
    ensures var before := if how.Answered? then s.(resolved := Remember(s.resolved, how.response)) else s;
            Inv(o, Settle(before, how))
  {
    hide TakenFrom, Newest, Remember;
    TakenGrows(s.settled, Settled(s.pending.value, how));
    if how.Answered? {
      NewestGrows(TakenFrom(s.settled), how.response);
    } else {
      assert TakenFrom(s.settled) + [] == TakenFrom(s.settled);
    }
  }

  lemma FinishKeepsInv(o: Owner, s: State)
    requires Inv(o, s) && s.queue != [] && s.pending.None?
    ensures Inv(o, Finish(s))
  {
    hide SettledOk, TakenFrom, Newest;
  }

  /** The request is published, or lost at once. */
  lemma AskKeepsInv(o: Owner, s: State, expires: int, aborted: bool, published: bool)
    requires Inv(o, s) && s.queue != [] && s.pending.None?
    ensures Inv(o, Ask(s, expires, aborted, published))
  {
    hide SettledOk, TakenFrom, Newest, Remember;
    FinishKeepsInv(o, s);
    if !aborted && CanAsk(s.queue[0]) {
      var asked := Ask(s, expires, false, true);
      assert Inv(o, asked);
      if !published { SettleKeepsInv(o, asked, Lost); }
    }
  }

  lemma StepKeepsInv(o: Owner, s: State, a: Action)
    requires Inv(o, s)
    ensures Inv(o, Step(o, s, a))
  {
    hide SettledOk, TakenFrom, Newest, Remember, Answers, Recall, Ask, Finish;
    match a
    case DoEnqueue(operation) =>
    case DoBegin(expires, aborted, published) =>
      if s.queue != [] && s.stage.Queued? {
        FinishKeepsInv(o, s);
        AskKeepsInv(o, s, expires, aborted, published);
      }
    case DoContinue(expires, aborted, published) =>
      if s.stage.Prepared? { AskKeepsInv(o, s, expires, aborted, published); }
    case DoReceive(response, now, emitted) => ReceiveKeepsInv(o, s, response, now, emitted);
    case DoLose => if s.pending.Some? { SettleKeepsInv(o, s, Lost); }
    case DoClose =>
      assert Inv(o, s.(closed := true));
      if s.pending.Some? { SettleKeepsInv(o, s.(closed := true), Lost); }
  }

  lemma ReceiveKeepsInv(o: Owner, s: State, r: Response, now: int, emitted: bool)
    requires Inv(o, s)
    ensures Inv(o, Receive(o, s, r, now, emitted).0)
  {
    hide SettledOk, TakenFrom, Newest, Remember, Recall, Settle;
    if Receive(o, s, r, now, emitted).1.Accepted? { SettleKeepsInv(o, s, Answered(r)); }
  }

  lemma {:induction false} RunKeepsInv(o: Owner, actions: seq<Action>)
    ensures Inv(o, Run(o, START, actions))
    decreases |actions|
  {
    if actions != [] {
      RunKeepsInv(o, actions[..|actions| - 1]);
      StepKeepsInv(o, Run(o, START, actions[..|actions| - 1]), actions[|actions| - 1]);
    }
  }

  // ---------- What holds of every run ----------

  /** How often a request was settled. */
  function Settlements(settled: seq<Settled>, id: Id): nat {
    if settled == [] then 0
    else Settlements(settled[..|settled| - 1], id) + (if settled[|settled| - 1].request.id == id then 1 else 0)
  }

  lemma {:induction false} SettlementsInOrder(settled: seq<Settled>, id: Id)
    requires SettledOk(settled)
    ensures Settlements(settled, id) == if id < |settled| then 1 else 0
  {
    if settled != [] { SettlementsInOrder(settled[..|settled| - 1], id); }
  }

  /** Every issued request is the pending one, which has not been settled, or was settled
      exactly once; and nothing else was ever settled. */
  lemma EachRequestSettlesOnce(o: Owner, actions: seq<Action>, id: Id)
    ensures var s := Run(o, START, actions);
            var pending := s.pending.Some? && s.pending.value.id == id;
            && (pending ==> id < s.nextId && s.stage.Waiting? && s.queue != [] && s.queue[0] == s.pending.value.operation)
            && Settlements(s.settled, id) == if id < s.nextId && !pending then 1 else 0
  {
    RunKeepsInv(o, actions);
    SettlementsInOrder(Run(o, START, actions).settled, id);
  }

  lemma {:induction false} TakenWereSettled(settled: seq<Settled>, r: Response)
    requires SettledOk(settled) && r in TakenFrom(settled)
    ensures r.request < |settled| && settled[r.request].how == Answered(r)
  {
    var n := |settled| - 1;
    if settled[n].how != Answered(r) { TakenWereSettled(settled[..n], r); }
  }

  predicate DistinctRequests(all: seq<Response>) { forall i, j | 0 <= i < j < |all| :: all[i].request != all[j].request }

  lemma {:induction false} TakenAreDistinct(settled: seq<Settled>)
    requires SettledOk(settled)
    ensures DistinctRequests(TakenFrom(settled))
  {
    if settled != [] {
      var n := |settled| - 1;
      TakenAreDistinct(settled[..n]);
      var earlier, all := TakenFrom(settled[..n]), TakenFrom(settled);
      forall r | r in earlier ensures r.request < n {
        TakenWereSettled(settled[..n], r);
      }
      forall i, j | 0 <= i < j < |all| ensures all[i].request != all[j].request {
        assert all[i] in earlier;
      }
    }
  }

  lemma {:induction false} RecallFinds(all: seq<Response>, r: Response)
    requires DistinctRequests(all)
    ensures Recall(all, r.request) == Some(r) <==> r in all
  {
    if all != [] {
      var n := |all| - 1;
      RecallFinds(all[..n], r);
      assert all == all[..n] + [all[n]];
      if all[n].request == r.request && r in all {
        var i :| 0 <= i < |all| && all[i] == r;
      }
    }
  }

  /** While the owner is open, a response is taken for a repeat exactly when it is among the
      last 128 that were taken. */
  lemma RepeatsAreTheLastTaken(o: Owner, actions: seq<Action>, r: Response, now: int, emitted: bool)
    requires IsBound(o, Run(o, START, actions), r)
    ensures var s := Run(o, START, actions);
            Receive(o, s, r, now, emitted).1.Repeated? <==> r in Newest(TakenFrom(s.settled))
  {
    RunKeepsInv(o, actions);
    var s := Run(o, START, actions);
    TakenAreDistinct(s.settled);
    RecallFinds(s.resolved, r);
  }

  /** A turn's owner issues at most 128 requests, so its memory never forgets: until it
      closes, every response it took is a no-op when given again, and any other response to
      that request is rejected without a change. */
  lemma TurnsNeverForget(o: Owner, actions: seq<Action>, taken: Response, r: Response, now: int, emitted: bool)
    requires o.turn.Some? && taken in TakenFrom(Run(o, START, actions).settled)
    requires IsBound(o, Run(o, START, actions), r) && r.request == taken.request
    ensures var s := Run(o, START, actions);
            Receive(o, s, r, now, emitted) == (s, if r == taken then Repeated else Rejected)
  {
    RunKeepsInv(o, actions);
    var s := Run(o, START, actions);
    TakenIsShorter(s.settled);
    TakenAreDistinct(s.settled);
    RecallFinds(TakenFrom(s.settled), r);
    TakenWereSettled(s.settled, taken);
    if r != taken { OnlyOneTaken(TakenFrom(s.settled), taken, r); }
  }

  lemma OnlyOneTaken(all: seq<Response>, taken: Response, r: Response)
    requires DistinctRequests(all) && taken in all && r != taken && r.request == taken.request
    ensures r !in all
  {}

  lemma NewestKeeps(all: seq<Response>, k: nat)
    requires DistinctRequests(all) && k < |all|
    ensures all[k] in Newest(all) <==> |all| - k <= LIMIT
  {
    var kept := Newest(all);
    if |all| - k <= LIMIT {
      assert kept[k - (|all| - |kept|)] == all[k];
    } else {
      assert forall i | 0 <= i < |kept| :: kept[i] == all[|all| - LIMIT + i] && kept[i].request != all[k].request;
    }
  }

  /** A response taken once is a no-op when given again until 128 later ones were taken, and
      is then rejected like one never seen. */
  lemma RememberedFor(o: Owner, actions: seq<Action>, k: nat, now: int, emitted: bool)
    requires k < |TakenFrom(Run(o, START, actions).settled)|
    requires IsBound(o, Run(o, START, actions), TakenFrom(Run(o, START, actions).settled)[k])
    ensures var s := Run(o, START, actions);
            var all := TakenFrom(s.settled);
            Receive(o, s, all[k], now, emitted) == (s, if |all| - k <= LIMIT then Repeated else Rejected)
  {
    RunKeepsInv(o, actions);
    var s := Run(o, START, actions);
    var all := TakenFrom(s.settled);
    TakenAreDistinct(s.settled);
    NewestKeeps(all, k);
    RepeatsAreTheLastTaken(o, actions, all[k], now, emitted);
    TakenWereSettled(s.settled, all[k]);
  }

  const ANY_FORM := Form(true, (value: string) => true)

  function AnswerTo(o: Owner, id: Id): Response { Response(InputKind, o.session, o.turn, id, "actor", "", "", false, "", None) }

  /** A form is asked for and answered at once. */
  function Round(o: Owner, id: Id): seq<Action> {
    [DoEnqueue(ANY_FORM), DoBegin(1, false, true), DoReceive(AnswerTo(o, id), 0, true)]
  }

  function Rounds(o: Owner, n: nat): seq<Action> { if n == 0 then [] else Rounds(o, n - 1) + Round(o, n - 1) }

  lemma RunOne(o: Owner, actions: seq<Action>, a: Action)
    ensures Run(o, START, actions + [a]) == Step(o, Run(o, START, actions), a)
  {
    assert (actions + [a])[..|actions|] == actions;
  }

  lemma RunThree(o: Owner, actions: seq<Action>, a: Action, b: Action, c: Action)
    ensures Run(o, START, actions + [a, b, c]) == Step(o, Step(o, Step(o, Run(o, START, actions), a), b), c)
  {
    hide Step;
    RunOne(o, actions, a);
    RunOne(o, actions + [a], b);
    RunOne(o, actions + [a] + [b], c);
    assert actions + [a, b, c] == actions + [a] + [b] + [c];
  }

  predicate Rests(s: State) { !s.closed && s.outstanding == 0 && s.queue == [] && s.stage.Queued? && s.pending.None? }

  lemma RoundAnswers(o: Owner, actions: seq<Action>, id: Id)
    requires o.turn.None? && Rests(Run(o, START, actions)) && Run(o, START, actions).nextId == id
    ensures var before, after := Run(o, START, actions), Run(o, START, actions + Round(o, id));
            Rests(after) && after.nextId == id + 1 && after.settled == before.settled + [Settled(Request(ANY_FORM, id, 1), Answered(AnswerTo(o, id)))]
  {
    RunKeepsInv(o, actions);
    RunThree(o, actions, DoEnqueue(ANY_FORM), DoBegin(1, false, true), DoReceive(AnswerTo(o, id), 0, true));
    RestingAnswers(o, Run(o, START, actions), id);
  }

  lemma RestingAnswers(o: Owner, s: State, id: Id)
    requires Inv(o, s) && o.turn.None? && s.nextId == id && Rests(s)
    ensures var after := Step(o, Step(o, Step(o, s, DoEnqueue(ANY_FORM)), DoBegin(1, false, true)), DoReceive(AnswerTo(o, id), 0, true));
            && Rests(after) && after.nextId == id + 1 && after.settled == s.settled + [Settled(Request(ANY_FORM, id, 1), Answered(AnswerTo(o, id)))]
  {
    NothingRecalled(s.settled, s.resolved, id);
  }

  lemma {:induction false} RoundsAnswer(o: Owner, n: nat)
    requires o.turn.None?
    ensures var s := Run(o, START, Rounds(o, n));
            && Rests(s) && s.nextId == n && |TakenFrom(s.settled)| == n
            && forall i | 0 <= i < n :: TakenFrom(s.settled)[i] == AnswerTo(o, i)
  {
    hide Answers, Step, Receive;
    if n == 0 { return; }
    var before := Run(o, START, Rounds(o, n - 1));
    RoundsAnswer(o, n - 1);
    assert Rounds(o, n) == Rounds(o, n - 1) + Round(o, n - 1);
    hide *;
    RoundAnswers(o, Rounds(o, n - 1), n - 1);
    TakenGrows(before.settled, Settled(Request(ANY_FORM, n - 1, 1), Answered(AnswerTo(o, n - 1))));
  }

  lemma {:induction false} NothingRecalled(settled: seq<Settled>, resolved: seq<Response>, id: Id)
    requires SettledOk(settled) && |settled| <= id && forall r | r in resolved :: r in TakenFrom(settled)
    ensures Recall(resolved, id) == None
  {
    if resolved != [] {
      TakenWereSettled(settled, resolved[|resolved| - 1]);
      NothingRecalled(settled, resolved[..|resolved| - 1], id);
    }
  }

  /** A session's owner forgets: after 129 answered forms it rejects the answer it took first. */
  lemma SessionsForget(o: Owner, now: int, emitted: bool)
    requires o.turn.None?
    ensures var s := Run(o, START, Rounds(o, LIMIT + 1));
            && AnswerTo(o, 0) in TakenFrom(s.settled)
            && Receive(o, s, AnswerTo(o, 0), now, emitted) == (s, Rejected)
  {
    RoundsAnswer(o, LIMIT + 1);
    RememberedFor(o, Rounds(o, LIMIT + 1), 0, now, emitted);
  }

  // ---------- What each step achieves ----------

  /** The head of the queue is done, and its request, if it had one, settled. */
  ghost predicate HeadIsDone(s: State, after: State, settled: seq<Settled>) {
    s.queue != [] && after == s.(queue := s.queue[1..], outstanding := |s.queue| - 1, stage := Queued, pending := None,
                                 settled := s.settled + settled, nextId := |s.settled| + |settled|)
  }

  /** A response is taken exactly when its owner is open, it is for this owner and of somebody,
      it was not taken among the last 128, the journal takes it, and it is in time and one the
      pending request asked for; that request is then settled with it. */
  lemma ResponsesAreTaken(o: Owner, actions: seq<Action>, r: Response, now: int, emitted: bool)
    ensures var s := Run(o, START, actions);
            var (after, reception) := Receive(o, s, r, now, emitted);
            var known := r in Newest(TakenFrom(s.settled));
            var bound := !s.closed && r.session == o.session && r.turn == o.turn && r.actor != "";
            && (reception.Accepted? <==> bound && !known && emitted && s.pending.Some? && s.pending.value.id == r.request
                                         && now < s.pending.value.expires && Fits(s.pending.value.operation, r))
            && (reception.Repeated? <==> bound && known)
            && (if reception.Accepted? then
                  HeadIsDone(s, after.(resolved := s.resolved), [Settled(s.pending.value, Answered(r))])
                  && after.resolved == Newest(TakenFrom(s.settled) + [r])
                else after == s)
  {
    RunKeepsInv(o, actions);
    var s := Run(o, START, actions);
    TakenAreDistinct(s.settled);
    RecallFinds(s.resolved, r);
    NewestGrows(TakenFrom(s.settled), r);
    hide Run, SettledOk, TakenFrom, Newest, Recall, Remember, DistinctRequests;
  }

  /** Every request that was answered was answered by a response it asked for. */
  lemma AnswersFit(o: Owner, actions: seq<Action>, i: nat)
    requires i < |Run(o, START, actions).settled| && Run(o, START, actions).settled[i].how.Answered?
    ensures var entry := Run(o, START, actions).settled[i];
            entry.how.response.request == entry.request.id == i && Fits(entry.request.operation, entry.how.response)
  {
    RunKeepsInv(o, actions);
  }

  /** A turn's owner queues the first 128 operations it is given, whatever became of them; a
      session's owner queues forms, up to 128 at a time. */
  lemma OperationsAreQueued(o: Owner, actions: seq<Action>, operation: Operation)
    ensures var s := Run(o, START, actions);
            var after := Step(o, s, DoEnqueue(operation));
            var room := if o.turn.Some? then s.count < LIMIT else operation.Form? && |s.queue| < LIMIT;
            after == s.(count := if o.turn.Some? then s.count + 1 else s.count,
                        queue := if room then s.queue + [operation] else s.queue,
                        outstanding := if room then |s.queue| + 1 else |s.queue|)
  {
    RunKeepsInv(o, actions);
    hide Run, SettledOk, TakenFrom, Newest;
  }

  /** What asking comes to: the operation ends without a request, its request is pending, or the
      request could not be published and is lost. */
  ghost predicate Asks(s: State, after: State, expires: int, aborted: bool, published: bool)
    requires s.queue != []
  {
    var request := Request(s.queue[0], |s.settled|, expires);
    if aborted || (s.queue[0].Approval? && s.queue[0].allowed == {}) then HeadIsDone(s, after, [])
    else if published then after == s.(pending := Some(request), stage := Waiting, nextId := |s.settled| + 1)
    else HeadIsDone(s, after, [Settled(request, Lost)])
  }

  /** The head of the queue begins when nothing is under way: in a closed owner, or where its
      binding fails, it ends; an approval that names a root to grant is suspended; every other
      operation asks, and so does the suspended one when it goes on. */
  lemma HeadsProceed(o: Owner, actions: seq<Action>, expires: int, aborted: bool, published: bool)
    requires Run(o, START, actions).queue != []
    ensures var s := Run(o, START, actions);
            var begun, continued := Step(o, s, DoBegin(expires, aborted, published)), Step(o, s, DoContinue(expires, aborted, published));
            var head := s.queue[0];
            && (s.stage.Queued? ==> if s.closed || !head.bound then HeadIsDone(s, begun, [])
                                    else if head.Approval? && head.suspends then begun == s.(stage := Prepared)
                                    else Asks(s, begun, expires, aborted, published))
            && (!s.stage.Queued? ==> begun == s)
            && (if s.stage.Prepared? then Asks(s, continued, expires, aborted, published) else continued == s)
  {
    RunKeepsInv(o, actions);
    var s := Run(o, START, actions);
    assert s.settled + [] == s.settled;
    hide Run, SettledOk, TakenFrom, Newest;
  }

  /** A pending request is lost to an expiry, an abort, a dead provider, and the close. */
  lemma PendingAreLost(o: Owner, actions: seq<Action>)
    ensures var s := Run(o, START, actions);
            var lost, closed := Step(o, s, DoLose), Step(o, s, DoClose);
            if s.pending.Some? then HeadIsDone(s, lost, [Settled(s.pending.value, Lost)]) && closed == lost.(closed := true)
            else lost == s && closed == s.(closed := true)
  {
    RunKeepsInv(o, actions);
    hide Run, SettledOk, TakenFrom, Newest;
  }

  // ---------- After the close ----------

  /** In a closed owner a request becomes pending exactly when an operation that was suspended
      goes on with a decision to offer, is not aborted, and is published. */
  lemma AsksAfterClose(o: Owner, actions: seq<Action>, a: Action)
    requires Run(o, START, actions).closed
    ensures var s := Run(o, START, actions);
            && (s.pending.None? && Step(o, s, a).pending.Some? <==>
                  && a.DoContinue? && s.stage.Prepared? && s.queue != [] && CanAsk(s.queue[0]) && !a.aborted && a.published)
            && (s.stage.Prepared? ==> s.queue != [] && s.queue[0].Approval? && s.queue[0].suspends && s.queue[0].bound)
  {
    RunKeepsInv(o, actions);
    hide Run, SettledOk, TakenFrom, Newest;
  }

  /** That operation passed its checks while the owner was open. */
  lemma {:induction false} PreparedBeforeClose(o: Owner, actions: seq<Action>) returns (k: nat)
    requires Run(o, START, actions).closed && Run(o, START, actions).stage.Prepared?
    ensures k <= |actions|
    ensures var open, s := Run(o, START, actions[..k]), Run(o, START, actions);
            && !open.closed && open.stage.Prepared? && open.nextId == s.nextId
            && open.queue != [] && s.queue != [] && open.queue[0] == s.queue[0]
    decreases |actions|
  {
    var n := |actions| - 1;
    var before := Run(o, START, actions[..n]);
    RunKeepsInv(o, actions);
    RunKeepsInv(o, actions[..n]);
    KeepsPrepared(o, before, actions[n]);
    if before.closed {
      k := PreparedBeforeClose(o, actions[..n]);
      assert actions[..n][..k] == actions[..k];
    } else {
      k := n;
    }
  }

  lemma KeepsPrepared(o: Owner, s: State, a: Action)
    requires Inv(o, s) && Step(o, s, a).closed && Step(o, s, a).stage.Prepared?
    ensures s.stage.Prepared? && s.queue != [] && Step(o, s, a).queue != []
    ensures s.queue[0] == Step(o, s, a).queue[0] && Step(o, s, a).nextId == s.nextId
  {
    hide SettledOk, TakenFrom, Newest;
  }

  /** After the close no response is taken, and at most one more request is issued: that of
      the operation suspended at that time. */
  lemma {:induction false} ClosedAsksAtMostOnce(o: Owner, actions: seq<Action>, more: seq<Action>)
    requires Run(o, START, actions).closed
    ensures var s, later := Run(o, START, actions), Run(o, START, actions + more);
            && later.closed && TakenFrom(later.settled) == TakenFrom(s.settled)
            && later.nextId + (if later.stage.Prepared? then 1 else 0) <= s.nextId + (if s.stage.Prepared? then 1 else 0)
            && forall r, now, emitted :: Receive(o, later, r, now, emitted) == (later, Rejected)
    decreases |more|
  {
    hide Inv, Step, TakenFrom, Answers, Recall;
    if more == [] {
      assert actions + more == actions;
    } else {
      var n, all := |more| - 1, actions + more;
      assert all[..|all| - 1] == actions + more[..n] && all[|all| - 1] == more[n];
      ClosedAsksAtMostOnce(o, actions, more[..n]);
      RunKeepsInv(o, actions + more[..n]);
      ClosedStep(o, Run(o, START, actions + more[..n]), more[n]);
    }
  }

  lemma ClosedStep(o: Owner, s: State, a: Action)
    requires Inv(o, s) && s.closed
    ensures var after := Step(o, s, a);
            && after.closed && TakenFrom(after.settled) == TakenFrom(s.settled)
            && after.nextId + (if after.stage.Prepared? then 1 else 0) <= s.nextId + (if s.stage.Prepared? then 1 else 0)
  {
    hide SettledOk, TakenFrom, Newest, Answers, Recall, Remember;
    forall q: Request ensures TakenFrom(s.settled + [Settled(q, Lost)]) == TakenFrom(s.settled) {
      TakenGrows(s.settled, Settled(q, Lost));
      assert TakenFrom(s.settled) + [] == TakenFrom(s.settled);
    }
  }

  /** One such run: an approval is suspended, its owner closes, and the request is published
      where no response can reach it. */
  lemma LateRequestIsReached(o: Owner, approval: Operation, expires: int)
    requires o.turn.Some? && approval.bound && Suspends(approval) && CanAsk(approval)
    ensures var s := Run(o, START, [DoEnqueue(approval), DoBegin(expires, false, true), DoClose, DoContinue(expires, false, true)]);
            && s.closed && s.pending == Some(Request(approval, 0, expires))
            && forall r, now, emitted :: Receive(o, s, r, now, emitted) == (s, Rejected)
  {
    var actions := [DoEnqueue(approval), DoBegin(expires, false, true), DoClose];
    RunThree(o, [], actions[0], actions[1], actions[2]);
    assert [] + actions == actions;
    var all := actions + [DoContinue(expires, false, true)];
    assert all[..3] == actions && all == [DoEnqueue(approval), DoBegin(expires, false, true), DoClose, DoContinue(expires, false, true)];
  }

  // ---------- The owner as an object ----------

  class NativeInteractions {
    const owner: Owner
    var closed: bool
    var count: nat
    var outstanding: nat
    var queue: seq<Operation>
    var stage: Stage
    var pending: Option<Request>
    var resolved: seq<Response>
    var nextId: Id
    ghost var settled: seq<Settled>

    ghost function Value(): State
      reads this
    {
      State(closed, count, outstanding, queue, stage, pending, resolved, nextId, settled)
    }

    constructor (owner: Owner)
      ensures Value() == START && this.owner == owner
    {
      this.owner := owner;
      closed, count, outstanding, queue, stage, pending := false, 0, 0, [], Queued, None;
      resolved, nextId, settled := [], 0, [];
    }

    method Serialize(operation: Operation) returns (queued: bool)
      modifies this`count, this`outstanding, this`queue
      ensures Value() == Step(owner, old(Value()), DoEnqueue(operation))
      ensures queued <==> queue != old(queue)
    {
      if owner.turn.Some? {
        count := count + 1;
        if count > LIMIT { return false; }
      } else if !operation.Form? || outstanding >= LIMIT {
        return false;
      }
      outstanding := outstanding + 1;
      queue := queue + [operation];
      return true;
    }

    method FinishHead()
      requires queue != []
      modifies this`outstanding, this`queue, this`stage
      ensures Value() == Finish(old(Value()))
    {
      if outstanding > 0 { outstanding := outstanding - 1; }
      queue, stage := queue[1..], Queued;
    }

    method Begin(expires: int, aborted: bool, published: bool)
      modifies this
      ensures Value() == Step(owner, old(Value()), DoBegin(expires, aborted, published))
    {
      if queue == [] || !stage.Queued? { return; }
      if !queue[0].bound || closed {
        FinishHead();
      } else if Suspends(queue[0]) {
        stage := Prepared;
      } else {
        Wait(expires, aborted, published);
      }
    }

    method Continue(expires: int, aborted: bool, published: bool)
      modifies this
      ensures Value() == Step(owner, old(Value()), DoContinue(expires, aborted, published))
    {
      if queue != [] && stage.Prepared? { Wait(expires, aborted, published); }
    }

    method Wait(expires: int, aborted: bool, published: bool)
      requires queue != []
      modifies this
      ensures Value() == Ask(old(Value()), expires, aborted, published)
    {
      if aborted || !CanAsk(queue[0]) { FinishHead(); return; }
      pending := Some(Request(queue[0], nextId, expires));
      stage, nextId := Waiting, nextId + 1;
      if !published { SettlePending(Lost); }
    }

    method SettlePending(how: Settlement)
      requires pending.Some? && queue != []
      modifies this`pending, this`settled, this`outstanding, this`queue, this`stage
      ensures Value() == Settle(old(Value()), how)
    {
      settled := settled + [Settled(pending.value, how)];
      pending := None;
      FinishHead();
    }

    method Respond(r: Response, now: int, emitted: bool) returns (reception: Reception)
      modifies this
      ensures (Value(), reception) == Receive(owner, old(Value()), r, now, emitted)
      ensures if reception.Accepted? then pending.None? && old(pending).Some? && settled == old(settled) + [Settled(old(pending).value, Answered(r))]
              else Value() == old(Value())
    {
      if closed || r.session != owner.session || r.turn != owner.turn || r.actor == "" { return Rejected; }
      if Recall(resolved, r.request) == Some(r) { return Repeated; }
      if pending.None? || queue == [] || !Answers(pending.value, r, now) || !emitted { return Rejected; }
      resolved := resolved + [r];
      if |resolved| > LIMIT { resolved := resolved[1..]; }
      SettlePending(Answered(r));
      return Accepted;
    }

    method LosePending()
      modifies this
      ensures Value() == Step(owner, old(Value()), DoLose)
    {
      if pending.Some? && queue != [] { SettlePending(Lost); }
    }

    method CloseOwner()
      modifies this
      ensures Value() == Step(owner, old(Value()), DoClose)
    {
      closed := true;
      LosePending();
    }
  }
}
