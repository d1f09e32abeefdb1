/** Projections of native evidence from a slice of session events: proposed plans and
    native execution phases. */
module EventProjections {
  import opened EventFolds
  import opened Options

  // ---------- Proposed plans ----------

  datatype PlanKey = PlanKey(execution: string, item: string)

  datatype PlanBody = Delta(text: string) | Finished(plan: string)

  datatype PlanEvent = PlanEvent(session: string, turn: Option<string>, sequence: int, createdAt: string, key: PlanKey, body: PlanBody)

  datatype Plan = Plan(key: PlanKey, origin: string, preview: string, completed: Option<string>)

  datatype PlanState = PlanState(plans: seq<Plan>, previewBytes: nat, completionBytes: nat)

  const INPUT_MAX := 16384
  const PLAN_MAX := 128
  const TOTAL_BYTES := 8 * 1024 * 1024
  const PREVIEW_BYTES := 1024 * 1024

  const NO_PLANS := PlanState([], 0, 0)

  function PlanSequence(e: PlanEvent): int { e.sequence }

  function KeyOf(p: Plan): PlanKey { p.key }

  /** Finds the event's plan, or starts it. */
  function Enrolled(plans: seq<Plan>, e: PlanEvent): Option<seq<Plan>>
    requires e.turn.Some?
  {
    if IndexBy(KeyOf, plans, e.key) < |plans| then Some(plans)
    else if |plans| >= PLAN_MAX then None
    else Some(plans + [Plan(e.key, e.turn.value, [], None)])
  }

  /** What the event does to its plan, and the bytes of deltas and contents then taken. */
  function PlanTakes(bytes: string -> nat, plan: Plan, previewBytes: nat, completionBytes: nat, e: PlanEvent): Option<(Plan, nat, nat)>
    requires e.turn.Some?
  {
    if plan.origin != e.turn.value then None
    else
      match e.body
      case Delta(text) =>
        if plan.completed.Some? || previewBytes + bytes(text) > TOTAL_BYTES || bytes(plan.preview) + bytes(text) > PREVIEW_BYTES then None
        else Some((plan.(preview := plan.preview + text), previewBytes + bytes(text), completionBytes))
      case Finished(content) =>
        var taken := completionBytes + if plan.completed.None? then bytes(content) else 0;
        if (plan.completed.Some? && plan.completed.value != content) || taken > TOTAL_BYTES then None
        else Some((plan.(completed := Some(content)), previewBytes, taken))
  }

  function PlanStep(bytes: string -> nat, s: PlanState, e: PlanEvent): Option<PlanState> {
    if e.turn.None? || e.turn.value == "" then None
    else
      match Enrolled(s.plans, e)
      case None => None
      case Some(plans) =>
        var i := IndexBy(KeyOf, plans, e.key);
        if i == |plans| then None
        else
          match PlanTakes(bytes, plans[i], s.previewBytes, s.completionBytes, e)
          case None => None
          case Some((plan, previewBytes, completionBytes)) => Some(PlanState(plans[i := plan], previewBytes, completionBytes))
  }

  predicate IsRelevant(session: string, origin: Option<string>, e: PlanEvent) {
    e.session == session && (origin.Some? ==> e.turn == origin)
  }

  function RelevantPlans(session: string, origin: Option<string>, events: seq<PlanEvent>): seq<PlanEvent> {
    if events == [] then []
    else (if IsRelevant(session, origin, events[0]) then [events[0]] else []) + RelevantPlans(session, origin, events[1..])
  }

  /** The projection of a slice; None when it conflicts or exceeds a bound. */
  function ProposedPlans(bytes: string -> nat, events: seq<PlanEvent>, session: string, origin: Option<string>): Option<seq<Plan>> {
    if |events| > INPUT_MAX then None
    else
      match Projected((s, e) => PlanStep(bytes, s, e), PlanSequence, NO_PLANS, RelevantPlans(session, origin, events))
      case None => None
      case Some(s) => Some(s.plans)
  }

  method ProjectHcpProposedPlans(bytes: string -> nat, inputs: seq<PlanEvent>, session: string, origin: Option<string>)
    returns (result: Option<seq<Plan>>)
    ensures result == ProposedPlans(bytes, inputs, session, origin)
  {
    if |inputs| > INPUT_MAX { return None; }
    var events := BySequence(PlanSequence, RelevantPlans(session, origin, inputs));
    var sequences: map<int, PlanEvent>, plans: seq<Plan> := map[], [];
    var previewBytes: nat, completionBytes: nat := 0, 0;
    ghost var step := (s, e) => PlanStep(bytes, s, e);
    ghost var goal := FoldOnce(step, PlanSequence, NO_PLANS, map[], events);
    for n := 0 to |events|
      invariant FoldOnce(step, PlanSequence, PlanState(plans, previewBytes, completionBytes), sequences, events[n..]) == goal
    {
      var e := events[n];
      assert events[n..][0] == e && events[n..][1..] == events[n + 1..];
      if e.sequence in sequences {
        if sequences[e.sequence] != e { return None; }
        continue;
      }
      var next := PlanStep(bytes, PlanState(plans, previewBytes, completionBytes), e);
      if next.None? { return None; }
      sequences := sequences[e.sequence := e];
      plans, previewBytes, completionBytes := next.value.plans, next.value.previewBytes, next.value.completionBytes;
    }
    return Some(plans);
  }

  lemma {:induction false} RelevantElements(session: string, origin: Option<string>, events: seq<PlanEvent>)
    ensures forall e :: e in RelevantPlans(session, origin, events) <==> e in events && IsRelevant(session, origin, e)
  {
    if events != [] {
      RelevantElements(session, origin, events[1..]);
      InTail(events);
    }
  }

  /** Within the input bound the plans depend only on the set of relevant events. */
  lemma PlansIgnoreOrderAndRepetition(bytes: string -> nat, a: seq<PlanEvent>, b: seq<PlanEvent>, session: string, origin: Option<string>)
    requires |a| <= INPUT_MAX && |b| <= INPUT_MAX
    requires forall e | IsRelevant(session, origin, e) :: e in a <==> e in b
    ensures ProposedPlans(bytes, a, session, origin) == ProposedPlans(bytes, b, session, origin)
  {
    RelevantElements(session, origin, a);
    RelevantElements(session, origin, b);
    OrderAndRepetitionDoNotMatter((s, e) => PlanStep(bytes, s, e), PlanSequence, NO_PLANS,
                                  RelevantPlans(session, origin, a), RelevantPlans(session, origin, b));
  }

  // ---------- What the plans are ----------

  function PlanKeyOf(e: PlanEvent): PlanKey { e.key }

  /** The text the plan's deltas spell, in the order of the list. */
  function Deltas(events: seq<PlanEvent>, key: PlanKey): string {
    if events == [] then []
    else
      var last := events[|events| - 1];
      Deltas(events[..|events| - 1], key) + if last.key == key && last.body.Delta? then last.body.text else []
  }

  /** The turn of the plan's first event. */
  function TurnOf(events: seq<PlanEvent>, key: PlanKey): Option<string> {
    if events == [] then None
    else
      var last, earlier := events[|events| - 1], TurnOf(events[..|events| - 1], key);
      if earlier.Some? then earlier else if last.key == key then last.turn else None
  }

  /** The content of the plan's first completion. */
  function ContentOf(events: seq<PlanEvent>, key: PlanKey): Option<string> {
    if events == [] then None
    else
      var last, earlier := events[|events| - 1], ContentOf(events[..|events| - 1], key);
      if earlier.Some? then earlier else if last.key == key && last.body.Finished? then Some(last.body.plan) else None
  }

  /** The plan the events describe. */
  function PlanFor(events: seq<PlanEvent>, key: PlanKey): Plan {
    var turn := TurnOf(events, key);
    Plan(key, if turn.Some? then turn.value else "", Deltas(events, key), ContentOf(events, key))
  }

  /** The bytes of all deltas. */
  function DeltaBytes(bytes: string -> nat, events: seq<PlanEvent>): nat {
    if events == [] then 0
    else
      var last := events[|events| - 1];
      DeltaBytes(bytes, events[..|events| - 1]) + if last.body.Delta? then bytes(last.body.text) else 0
  }

  /** The bytes of the first completion of each plan. */
  function ContentBytes(bytes: string -> nat, events: seq<PlanEvent>): nat {
    if events == [] then 0
    else
      var last, earlier := events[|events| - 1], events[..|events| - 1];
      ContentBytes(bytes, earlier) + if last.body.Finished? && ContentOf(earlier, last.key).None? then bytes(last.body.plan) else 0
  }

  /** A delta comes before its plan's completion, and a completion repeats the first one's
      content; and the bytes of deltas and contents stay within their bounds. */
  predicate BodyMayFollow(bytes: string -> nat, done: seq<PlanEvent>, e: PlanEvent) {
    match e.body
    case Delta(text) =>
      && ContentOf(done, e.key).None? && DeltaBytes(bytes, done) + bytes(text) <= TOTAL_BYTES
      && bytes(Deltas(done, e.key)) + bytes(text) <= PREVIEW_BYTES
    case Finished(content) =>
      if ContentOf(done, e.key).Some? then ContentOf(done, e.key).value == content && ContentBytes(bytes, done) <= TOTAL_BYTES
      else ContentBytes(bytes, done) + bytes(content) <= TOTAL_BYTES
  }

  /** An event agrees with those before it: it has a turn, that of its plan, its plan is one of
      at most 128, and its body may follow. */
  predicate PlanMayFollow(bytes: string -> nat, done: seq<PlanEvent>, e: PlanEvent) {
    && e.turn.Some? && e.turn.value != "" && (TurnOf(done, e.key).Some? ==> TurnOf(done, e.key) == e.turn)
    && (e.key in Keys(PlanKeyOf, done) || |Keys(PlanKeyOf, done)| < PLAN_MAX)
    && BodyMayFollow(bytes, done, e)
  }

  function PlansOf(bytes: string -> nat, events: seq<PlanEvent>): PlanState {
    PlanState(Table(PlanKeyOf, PlanFor, events), DeltaBytes(bytes, events), ContentBytes(bytes, events))
  }

  lemma PlanForGrows(done: seq<PlanEvent>, e: PlanEvent, key: PlanKey)
    ensures key != e.key ==> PlanFor(done + [e], key) == PlanFor(done, key)
    ensures Deltas(done + [e], key) == Deltas(done, key) + if e.key == key && e.body.Delta? then e.body.text else []
    ensures TurnOf(done + [e], key) == if TurnOf(done, key).Some? then TurnOf(done, key) else if e.key == key then e.turn else None
    ensures ContentOf(done + [e], key) == if ContentOf(done, key).Some? then ContentOf(done, key)
                                          else if e.key == key && e.body.Finished? then Some(e.body.plan) else None
  {
    assert (done + [e])[..|done|] == done;
    assert Deltas(done, key) + [] == Deltas(done, key);
  }

  lemma BytesGrow(bytes: string -> nat, done: seq<PlanEvent>, e: PlanEvent)
    ensures DeltaBytes(bytes, done + [e]) == DeltaBytes(bytes, done) + if e.body.Delta? then bytes(e.body.text) else 0
    ensures ContentBytes(bytes, done + [e])
         == ContentBytes(bytes, done) + if e.body.Finished? && ContentOf(done, e.key).None? then bytes(e.body.plan) else 0
  {
    assert (done + [e])[..|done|] == done;
  }

  lemma {:induction false} NothingOf(done: seq<PlanEvent>, key: PlanKey)
    requires key !in Keys(PlanKeyOf, done)
    ensures TurnOf(done, key).None? && ContentOf(done, key).None? && Deltas(done, key) == []
  {
    if done != [] {
      var n := |done| - 1;
      assert done[n] in done && PlanKeyOf(done[n]) != key;
      assert forall e :: e in done[..n] ==> e in done;
      NothingOf(done[..n], key);
    }
  }

  lemma NothingYet(bytes: string -> nat)
    ensures PlansOf(bytes, []) == NO_PLANS
  {}

  /** Among the plans described, the one of a key stands where the key does. */
  lemma PlanIndex(done: seq<PlanEvent>, key: PlanKey)
    ensures IndexBy(KeyOf, Table(PlanKeyOf, PlanFor, done), key) == IndexBy(k => k, Keys(PlanKeyOf, done), key)
  {
    var keys, plans := Keys(PlanKeyOf, done), Table(PlanKeyOf, PlanFor, done);
    var i, j := IndexBy(KeyOf, plans, key), IndexBy(k => k, keys, key);
    assert forall n | 0 <= n < |plans| :: KeyOf(plans[n]) == keys[n];
    if i < |plans| { assert keys[i] == key; }
    if j < |plans| { assert KeyOf(plans[j]) == key; }
  }

  lemma NewPlanIsLast(plans: seq<Plan>, p: Plan)
    requires IndexBy(KeyOf, plans, p.key) == |plans|
    ensures IndexBy(KeyOf, plans + [p], p.key) == |plans|
  {
    var i := IndexBy(KeyOf, plans + [p], p.key);
    assert forall j | 0 <= j < |plans| :: KeyOf((plans + [p])[j]) == KeyOf(plans[j]) && KeyOf(plans[j]) != p.key;
    assert KeyOf((plans + [p])[|plans|]) == p.key;
  }

  /** An admitted plan has the turn of its first event. */
  lemma {:induction false} AdmittedTurns(bytes: string -> nat, done: seq<PlanEvent>, key: PlanKey)
    requires Admitted((d, e) => PlanMayFollow(bytes, d, e), done) && key in Keys(PlanKeyOf, done)
    ensures TurnOf(done, key).Some? && TurnOf(done, key).value != ""
  {
    var n, may := |done| - 1, (d, e) => PlanMayFollow(bytes, d, e);
    assert may(done[..n], done[n]);
    assert Admitted(may, done[..n]) by {
      forall i | 0 <= i < n ensures may(done[..n][..i], done[..n][i]) { assert done[..n][..i] == done[..i] && may(done[..i], done[i]); }
    }
    if key in Keys(PlanKeyOf, done[..n]) { AdmittedTurns(bytes, done[..n], key); }
  }

  lemma TakesDescribes(bytes: string -> nat, done: seq<PlanEvent>, e: PlanEvent, origin: string)
    requires e.turn.Some? && e.turn.value != ""
    requires if TurnOf(done, e.key).Some? then TurnOf(done, e.key) == Some(origin) else e.turn == Some(origin)
    ensures PlanTakes(bytes, Plan(e.key, origin, Deltas(done, e.key), ContentOf(done, e.key)), DeltaBytes(bytes, done), ContentBytes(bytes, done), e)
         == if origin == e.turn.value && BodyMayFollow(bytes, done, e) then
              Some((PlanFor(done + [e], e.key), DeltaBytes(bytes, done + [e]), ContentBytes(bytes, done + [e]))) else None
  {
    hide Deltas, TurnOf, ContentOf, DeltaBytes, ContentBytes;
    if origin != e.turn.value { return; }
    PlanForGrows(done, e, e.key);
    BytesGrow(bytes, done, e);
    if e.body.Delta? { return; }
    assert Deltas(done, e.key) + [] == Deltas(done, e.key);
  }

  lemma PlansGrow(done: seq<PlanEvent>, e: PlanEvent)
    ensures var i, plans := IndexBy(k => k, Keys(PlanKeyOf, done), e.key), Table(PlanKeyOf, PlanFor, done);
            Table(PlanKeyOf, PlanFor, done + [e])
            == if i < |plans| then plans[i := PlanFor(done + [e], e.key)] else plans + [PlanFor(done + [e], e.key)]
  {
    forall k | k != PlanKeyOf(e) ensures PlanFor(done + [e], k) == PlanFor(done, k) { PlanForGrows(done, e, k); }
    TableGrows(PlanKeyOf, PlanFor, done, e);
  }

  /** The step where the event's plan is known, and where it is new. */
  lemma StepOnKnown(bytes: string -> nat, s: PlanState, i: nat, e: PlanEvent)
    requires e.turn.Some? && e.turn.value != "" && i < |s.plans| && IndexBy(KeyOf, s.plans, e.key) == i
    ensures PlanStep(bytes, s, e)
         == match PlanTakes(bytes, s.plans[i], s.previewBytes, s.completionBytes, e)
            case None => None
            case Some((plan, previewBytes, completionBytes)) => Some(PlanState(s.plans[i := plan], previewBytes, completionBytes))
  {
    hide PlanTakes, IndexBy;
  }

  lemma StepOnNew(bytes: string -> nat, s: PlanState, e: PlanEvent)
    requires e.turn.Some? && e.turn.value != "" && IndexBy(KeyOf, s.plans, e.key) == |s.plans|
    ensures PlanStep(bytes, s, e)
         == if |s.plans| >= PLAN_MAX then None
            else match PlanTakes(bytes, Plan(e.key, e.turn.value, [], None), s.previewBytes, s.completionBytes, e)
                 case None => None
                 case Some((plan, previewBytes, completionBytes)) => Some(PlanState(s.plans + [plan], previewBytes, completionBytes))
  {
    hide PlanTakes, IndexBy;
    var p := Plan(e.key, e.turn.value, [], None);
    NewPlanIsLast(s.plans, p);
    assert forall q :: (s.plans + [p])[|s.plans| := q] == s.plans + [q];
  }

  lemma KnownPlanDescribes(bytes: string -> nat, done: seq<PlanEvent>, e: PlanEvent)
    requires e.turn.Some? && e.turn.value != "" && e.key in Keys(PlanKeyOf, done)
    requires TurnOf(done, e.key).Some?
    ensures PlanStep(bytes, PlansOf(bytes, done), e) == if PlanMayFollow(bytes, done, e) then Some(PlansOf(bytes, done + [e])) else None
  {
    hide Deltas, TurnOf, ContentOf, DeltaBytes, ContentBytes, PlanTakes, PlanStep, BodyMayFollow, Keys, Table, IndexBy;
    PlanIndex(done, e.key);
    PlansGrow(done, e);
    var i := IndexBy(k => k, Keys(PlanKeyOf, done), e.key);
    StepOnKnown(bytes, PlansOf(bytes, done), i, e);
    TakesDescribes(bytes, done, e, TurnOf(done, e.key).value);
  }

  lemma NewPlanDescribes(bytes: string -> nat, done: seq<PlanEvent>, e: PlanEvent)
    requires e.turn.Some? && e.turn.value != "" && e.key !in Keys(PlanKeyOf, done)
    ensures PlanStep(bytes, PlansOf(bytes, done), e) == if PlanMayFollow(bytes, done, e) then Some(PlansOf(bytes, done + [e])) else None
  {
    hide Deltas, TurnOf, ContentOf, DeltaBytes, ContentBytes, PlanTakes, PlanStep, BodyMayFollow, PlanFor, Keys, Table, IndexBy;
    PlanIndex(done, e.key);
    PlansGrow(done, e);
    NothingOf(done, e.key);
    StepOnNew(bytes, PlansOf(bytes, done), e);
    TakesDescribes(bytes, done, e, e.turn.value);
  }

  /** The step on the plans described so far. */
  lemma PlanStepDescribes(bytes: string -> nat, done: seq<PlanEvent>, e: PlanEvent)
    requires Admitted((d, e) => PlanMayFollow(bytes, d, e), done)
    ensures PlanStep(bytes, PlansOf(bytes, done), e) == if PlanMayFollow(bytes, done, e) then Some(PlansOf(bytes, done + [e])) else None
  {
    hide Deltas, TurnOf, ContentOf, DeltaBytes, ContentBytes, PlanTakes, BodyMayFollow, Admitted, Keys, Table, IndexBy, PlansOf, Enrolled;
    if e.turn.None? || e.turn.value == "" { return; }
    if e.key in Keys(PlanKeyOf, done) {
      AdmittedTurns(bytes, done, e.key);
      KnownPlanDescribes(bytes, done, e);
    } else {
      NewPlanDescribes(bytes, done, e);
    }
  }

  /** The plans of a slice are known outright: where the slice is short enough and its relevant
      events, each once and in order of sequence, agree with each other, there is one plan for
      each key, in order of appearance, with the turn of its first event, its deltas in order,
      and the content its completions give; in every other case the slice is refused. */
  lemma PlansAreKnown(bytes: string -> nat, inputs: seq<PlanEvent>, session: string, origin: Option<string>)
    ensures var relevant := RelevantPlans(session, origin, inputs);
            var events := InOrder(PlanSequence, relevant);
            && (ProposedPlans(bytes, inputs, session, origin)
                == if |inputs| <= INPUT_MAX && Consistent(PlanSequence, relevant) && Admitted((d, e) => PlanMayFollow(bytes, d, e), events)
                   then Some(Table(PlanKeyOf, PlanFor, events)) else None)
            && (Consistent(PlanSequence, relevant) ==> IsStrict(PlanSequence, events) && SameElements(events, relevant))
            && (forall e :: e in relevant <==> e in inputs && e.session == session && (origin.Some? ==> e.turn == origin))
  {
    hide PlanStep, PlanMayFollow, RelevantPlans, Table, Admitted, InOrder, Projected, IsStrict, SameElements;
    var relevant := RelevantPlans(session, origin, inputs);
    var step, may := (s, e) => PlanStep(bytes, s, e), (d, e) => PlanMayFollow(bytes, d, e);
    RelevantElements(session, origin, inputs);
    if Consistent(PlanSequence, relevant) { InOrderIsSorted(PlanSequence, relevant); }
    PlansAreDescribed(bytes, relevant);
  }

  lemma PlansAreDescribed(bytes: string -> nat, events: seq<PlanEvent>)
    ensures Projected((s, e) => PlanStep(bytes, s, e), PlanSequence, NO_PLANS, events)
         == if Consistent(PlanSequence, events) && Admitted((d, e) => PlanMayFollow(bytes, d, e), InOrder(PlanSequence, events))
            then Some(PlansOf(bytes, InOrder(PlanSequence, events))) else None
  {
    hide PlanStep, PlanMayFollow, Admitted, InOrder, PlansOf, Projected, Consistent;
    var step, may, described := (s, e) => PlanStep(bytes, s, e), (d, e) => PlanMayFollow(bytes, d, e), d => PlansOf(bytes, d);
    forall d, e | Admitted(may, d) ensures step(described(d), e) == if may(d, e) then Some(described(d + [e])) else None {
      PlanStepDescribes(bytes, d, e);
    }
    NothingYet(bytes);
    ProjectedDescribes(step, PlanSequence, may, described, events);
  }

  // ---------- Native execution phases ----------

  datatype Status = Done | Interrupted | Broken

  datatype PhaseEvent = PhaseEvent(
    session: string, turn: string, sequence: int, createdAt: string, admitted: bool,
    admission: string, native: string, execution: string, goal: Option<string>, status: Option<Status>)

  datatype Phase = Phase(
    admission: string, native: string, execution: string, origin: string, goal: Option<string>,
    admittedAt: Option<string>, completedAt: Option<string>, status: Option<Status>)

  function PhaseSequence(e: PhaseEvent): int { e.sequence }

  function AdmissionOf(p: Phase): string { p.admission }

  /** The admission that owns the native execution, if some phase has it. */
  predicate IsForeign(phases: seq<Phase>, e: PhaseEvent) {
    exists p :: p in phases && p.native == e.native && p.execution == e.execution && p.admission != e.admission
  }

  predicate Contradicts(p: Phase, e: PhaseEvent) {
    p.native != e.native || p.execution != e.execution || p.origin != e.turn || p.goal != e.goal
    || (p.status.Some? && e.status.Some? && p.status != e.status)
  }

  function OrElse(a: Option<string>, b: string): Option<string> { if a.Some? then a else Some(b) }

  function Observed(p: Phase, e: PhaseEvent): Phase {
    var q := if e.admitted then p.(admittedAt := OrElse(p.admittedAt, e.createdAt)) else p;
    if e.status.Some? then q.(status := e.status, completedAt := OrElse(q.completedAt, e.createdAt)) else q
  }

  function PhaseStep(phases: seq<Phase>, e: PhaseEvent): Option<seq<Phase>> {
    if IsForeign(phases, e) then None
    else
      var i := IndexBy(AdmissionOf, phases, e.admission);
      if i < |phases| then
        if Contradicts(phases[i], e) then None else Some(phases[i := Observed(phases[i], e)])
      else
        Some(phases + [Observed(Phase(e.admission, e.native, e.execution, e.turn, e.goal, None, None, None), e)])
  }

  function RelevantPhases(session: string, origin: Option<string>, events: seq<PhaseEvent>): seq<PhaseEvent> {
    if events == [] then []
    else
      (if events[0].session == session && (origin.Some? ==> events[0].turn == origin.value) then [events[0]] else [])
      + RelevantPhases(session, origin, events[1..])
  }

  function NativePhases(events: seq<PhaseEvent>, session: string, origin: Option<string>): Option<seq<Phase>> {
    Fold(PhaseStep, [], BySequence(PhaseSequence, RelevantPhases(session, origin, events)))
  }

  method ProjectHcpNativePhases(inputs: seq<PhaseEvent>, session: string, origin: Option<string>) returns (result: Option<seq<Phase>>)
    ensures result == NativePhases(inputs, session, origin)
  {
    var events := BySequence(PhaseSequence, RelevantPhases(session, origin, inputs));
    var phases: seq<Phase>, owners: map<(string, string), string> := [], map[];
    for n := 0 to |events|
      invariant Fold(PhaseStep, phases, events[n..]) == NativePhases(inputs, session, origin)
      invariant OwnersAre(owners, phases)
    {
      var e := events[n];
      assert events[n..][0] == e && events[n..][1..] == events[n + 1..];
      if (e.native, e.execution) in owners && owners[(e.native, e.execution)] != e.admission { return None; }
      ghost var before := phases;
      var i := IndexBy(AdmissionOf, phases, e.admission);
      if i < |phases| {
        if Contradicts(phases[i], e) { return None; }
        phases := phases[i := Observed(phases[i], e)];
      } else {
        phases := phases + [Observed(Phase(e.admission, e.native, e.execution, e.turn, e.goal, None, None, None), e)];
      }
      OwnersGrow(owners, before, e);
      owners := owners[(e.native, e.execution) := e.admission];
    }
    return Some(phases);
  }

  /** The owner table names the admission of every native execution met so far. */
  ghost predicate OwnersAre(owners: map<(string, string), string>, phases: seq<Phase>) {
    && (forall p | p in phases :: (p.native, p.execution) in owners && owners[(p.native, p.execution)] == p.admission)
    && (forall k | k in owners :: exists p :: p in phases && (p.native, p.execution) == k && p.admission == owners[k])
  }

  lemma OwnersGrow(owners: map<(string, string), string>, phases: seq<Phase>, e: PhaseEvent)
    requires OwnersAre(owners, phases) && PhaseStep(phases, e).Some?
    ensures OwnersAre(owners[(e.native, e.execution) := e.admission], PhaseStep(phases, e).value)
  {
    hide IndexBy, AdmissionOf, OrElse;
    var i, after := IndexBy(AdmissionOf, phases, e.admission), PhaseStep(phases, e).value;
    var grown := owners[(e.native, e.execution) := e.admission];
    forall k | k in grown ensures exists p :: p in after && (p.native, p.execution) == k && p.admission == grown[k] {
      if k == (e.native, e.execution) {
        assert after[i] in after;
      } else {
        var p :| p in phases && (p.native, p.execution) == k && p.admission == owners[k];
        var j :| 0 <= j < |phases| && phases[j] == p;
        assert after[j] in after && after[j] == p;
      }
    }
    forall p | p in after ensures (p.native, p.execution) in grown && grown[(p.native, p.execution)] == p.admission {
      var j :| 0 <= j < |after| && after[j] == p;
      if j != i { assert phases[j] in phases; }
    }
  }

  /** No two phases of a projection share their admission or their native execution. */
  ghost predicate AreSeparate(phases: seq<Phase>) {
    forall i, j | 0 <= i < j < |phases| ::
      phases[i].admission != phases[j].admission && (phases[i].native, phases[i].execution) != (phases[j].native, phases[j].execution)
  }

  lemma {:induction false} FoldSeparates(phases: seq<Phase>, events: seq<PhaseEvent>)
    requires AreSeparate(phases)
    ensures Fold(PhaseStep, phases, events).Some? ==> AreSeparate(Fold(PhaseStep, phases, events).value)
    decreases |events|
  {
    if events != [] && PhaseStep(phases, events[0]).Some? {
      FoldSeparates(PhaseStep(phases, events[0]).value, events[1..]);
    }
  }

  lemma PhasesAreSeparate(inputs: seq<PhaseEvent>, session: string, origin: Option<string>)
    requires NativePhases(inputs, session, origin).Some?
    ensures AreSeparate(NativePhases(inputs, session, origin).value)
  {
    FoldSeparates([], BySequence(PhaseSequence, RelevantPhases(session, origin, inputs)));
  }

  /** Observing one event twice is observing it once. */
  lemma PhaseStepTwice(phases: seq<Phase>, e: PhaseEvent)
    requires PhaseStep(phases, e).Some?
    ensures PhaseStep(PhaseStep(phases, e).value, e) == PhaseStep(phases, e)
  {
    var i := IndexBy(AdmissionOf, phases, e.admission);
    var after := PhaseStep(phases, e).value;
    assert after[i := after[i]] == after;
  }

  lemma {:induction false} RelevantPhaseElements(session: string, origin: Option<string>, events: seq<PhaseEvent>)
    ensures forall e :: e in RelevantPhases(session, origin, events)
                   <==> e in events && e.session == session && (origin.Some? ==> e.turn == origin.value)
  {
    if events != [] {
      RelevantPhaseElements(session, origin, events[1..]);
      InTail(events);
    }
  }

  // ---------- What the phases are ----------

  function PhaseKeyOf(e: PhaseEvent): string { e.admission }

  function IsOf(admission: string): PhaseEvent -> bool { (e: PhaseEvent) => e.admission == admission }

  function Admits(admission: string): PhaseEvent -> bool { (e: PhaseEvent) => e.admission == admission && e.admitted }

  function Ends(admission: string): PhaseEvent -> bool { (e: PhaseEvent) => e.admission == admission && e.status.Some? }

  function TimeOf(e: Option<PhaseEvent>): Option<string> { if e.Some? then Some(e.value.createdAt) else None }

  function StatusOf(e: Option<PhaseEvent>): Option<Status> { if e.Some? then e.value.status else None }

  /** The phase the events describe: what its first event names, the time of its first
      admission, and the status and the time of its first end. */
  function PhaseFor(events: seq<PhaseEvent>, admission: string): (p: Phase)
    ensures p.admission == admission
  {
    var first, ended := First(IsOf(admission), events), First(Ends(admission), events);
    var blank := Phase(admission, "", "", "", None, TimeOf(First(Admits(admission), events)), TimeOf(ended), StatusOf(ended));
    if first.None? then blank
    else blank.(native := first.value.native, execution := first.value.execution, origin := first.value.turn, goal := first.value.goal)
  }

  /** Two events of one admission name the same execution, turn and goal and no two ends, and two
      events of one native execution name the same admission. */
  predicate PhasesAgree(d: PhaseEvent, e: PhaseEvent) {
    && (d.native == e.native && d.execution == e.execution ==> d.admission == e.admission)
    && (d.admission == e.admission ==>
          && d.native == e.native && d.execution == e.execution && d.turn == e.turn && d.goal == e.goal
          && (d.status.Some? && e.status.Some? ==> d.status == e.status))
  }

  ghost predicate AllAgree(events: seq<PhaseEvent>) { forall d, e | d in events && e in events :: PhasesAgree(d, e) }

  ghost predicate PhaseMayFollow(done: seq<PhaseEvent>, e: PhaseEvent) { forall d | d in done :: PhasesAgree(d, e) }

  lemma AdmittedAgree(events: seq<PhaseEvent>)
    ensures Admitted(PhaseMayFollow, events) <==> AllAgree(events)
  {
    if AllAgree(events) {
      forall i | 0 <= i < |events| ensures PhaseMayFollow(events[..i], events[i]) {
        assert forall d :: d in events[..i] ==> d in events;
      }
    }
    if Admitted(PhaseMayFollow, events) {
      forall d, e | d in events && e in events ensures PhasesAgree(d, e) {
        var i :| 0 <= i < |events| && events[i] == d;
        var j :| 0 <= j < |events| && events[j] == e;
        if i < j { assert PhaseMayFollow(events[..j], e) && events[..j][i] in events[..j]; }
        if j < i { assert PhaseMayFollow(events[..i], d) && events[..i][j] in events[..i]; }
      }
    }
  }

  lemma PhaseForGrows(done: seq<PhaseEvent>, e: PhaseEvent, admission: string)
    requires admission == e.admission && PhaseFor(done, admission).status.Some? && e.status.Some? ==> PhaseFor(done, admission).status == e.status
    ensures admission != e.admission ==> PhaseFor(done + [e], admission) == PhaseFor(done, admission)
    ensures admission == e.admission && First(IsOf(admission), done).Some? ==> PhaseFor(done + [e], admission) == Observed(PhaseFor(done, admission), e)
    ensures admission == e.admission && First(IsOf(admission), done).None? ==>
              PhaseFor(done + [e], admission) == Observed(Phase(admission, e.native, e.execution, e.turn, e.goal, None, None, None), e)
  {
    hide First;
    FirstGrows(IsOf(admission), done, e);
    FirstGrows(Admits(admission), done, e);
    FirstGrows(Ends(admission), done, e);
  }

  /** Among agreeing events, the phase described says what each of its events says. */
  lemma PhaseMatches(done: seq<PhaseEvent>, d: PhaseEvent)
    requires AllAgree(done) && d in done
    ensures var p := PhaseFor(done, d.admission);
            && p.native == d.native && p.execution == d.execution && p.origin == d.turn && p.goal == d.goal
            && (d.status.Some? ==> p.status == d.status)
  {}

  /** And what it says, one of its events says. */
  lemma PhaseComesFrom(done: seq<PhaseEvent>, admission: string)
    requires admission in Keys(PhaseKeyOf, done)
    ensures var p := PhaseFor(done, admission);
            && (exists d :: d in done && d.admission == admission && p.native == d.native && p.execution == d.execution
                                      && p.origin == d.turn && p.goal == d.goal)
            && (p.status.Some? ==> exists d :: d in done && d.admission == admission && d.status == p.status)
  {
    var e :| e in done && PhaseKeyOf(e) == admission;
    var first := First(IsOf(admission), done);
    assert IsOf(admission)(e);
    assert first.value in done;
  }

  /** Among the phases described, the one of an admission stands where the admission does. */
  lemma PhaseIndex(done: seq<PhaseEvent>, admission: string)
    ensures IndexBy(AdmissionOf, Table(PhaseKeyOf, PhaseFor, done), admission) == IndexBy(k => k, Keys(PhaseKeyOf, done), admission)
  {
    hide PhaseFor, Keys;
    var keys, phases := Keys(PhaseKeyOf, done), Table(PhaseKeyOf, PhaseFor, done);
    var i, j := IndexBy(AdmissionOf, phases, admission), IndexBy(k => k, keys, admission);
    assert forall n | 0 <= n < |phases| :: AdmissionOf(phases[n]) == keys[n];
    if i < |phases| { assert keys[i] == admission; }
    if j < |phases| { assert AdmissionOf(phases[j]) == admission; }
  }

  /** An event may follow agreeing ones exactly when no phase described owns its execution under
      another admission and its own phase does not contradict it. */
  lemma MayFollowIsNoClash(done: seq<PhaseEvent>, e: PhaseEvent)
    requires AllAgree(done)
    ensures PhaseMayFollow(done, e)
       <==> && !IsForeign(Table(PhaseKeyOf, PhaseFor, done), e)
            && (e.admission in Keys(PhaseKeyOf, done) ==> !Contradicts(PhaseFor(done, e.admission), e))
  {
    hide PhaseFor, IsOf, Admits, Ends, First;
    var keys, phases := Keys(PhaseKeyOf, done), Table(PhaseKeyOf, PhaseFor, done);
    if PhaseMayFollow(done, e) {
      forall p | p in phases && p.native == e.native && p.execution == e.execution ensures p.admission == e.admission {
        var n :| 0 <= n < |phases| && phases[n] == p;
        PhaseComesFrom(done, keys[n]);
      }
      if e.admission in keys { PhaseComesFrom(done, e.admission); }
    } else {
      var d :| d in done && !PhasesAgree(d, e);
      PhaseMatches(done, d);
      assert PhaseKeyOf(d) in keys;
      var n :| 0 <= n < |keys| && keys[n] == d.admission;
      assert phases[n] == PhaseFor(done, d.admission) && phases[n] in phases;
    }
  }

  lemma PhasesGrow(done: seq<PhaseEvent>, e: PhaseEvent)
    requires e.admission in Keys(PhaseKeyOf, done) ==> !Contradicts(PhaseFor(done, e.admission), e)
    ensures var i, phases := IndexBy(k => k, Keys(PhaseKeyOf, done), e.admission), Table(PhaseKeyOf, PhaseFor, done);
            Table(PhaseKeyOf, PhaseFor, done + [e])
            == if i < |phases| then phases[i := Observed(PhaseFor(done, e.admission), e)]
               else phases + [Observed(Phase(e.admission, e.native, e.execution, e.turn, e.goal, None, None, None), e)]
  {
    hide PhaseFor, Admits, Ends, Observed, First, IsOf, Keys, Table, IsForeign;
    if e.admission !in Keys(PhaseKeyOf, done) { NotYetOf(done, e.admission); }
    forall k | k != PhaseKeyOf(e) ensures PhaseFor(done + [e], k) == PhaseFor(done, k) { PhaseForGrows(done, e, k); }
    PhaseForGrows(done, e, e.admission);
    TableGrows(PhaseKeyOf, PhaseFor, done, e);
    FirstOfKnown(done, e.admission);
  }

  lemma NotYetOf(done: seq<PhaseEvent>, admission: string)
    requires admission !in Keys(PhaseKeyOf, done)
    ensures First(IsOf(admission), done).None? && PhaseFor(done, admission).status.None?
  {
    assert forall e | e in done :: PhaseKeyOf(e) != admission;
  }

  lemma FirstOfKnown(done: seq<PhaseEvent>, admission: string)
    ensures First(IsOf(admission), done).Some? <==> admission in Keys(PhaseKeyOf, done)
  {
    if admission in Keys(PhaseKeyOf, done) {
      var e :| e in done && PhaseKeyOf(e) == admission;
      assert IsOf(admission)(e);
    } else {
      NotYetOf(done, admission);
    }
  }

  /** The step on the phases described so far. */
  lemma PhaseStepDescribes(done: seq<PhaseEvent>, e: PhaseEvent)
    requires Admitted(PhaseMayFollow, done)
    ensures PhaseStep(Table(PhaseKeyOf, PhaseFor, done), e)
         == if PhaseMayFollow(done, e) then Some(Table(PhaseKeyOf, PhaseFor, done + [e])) else None
  {
    hide PhaseFor, PhaseMayFollow, Contradicts, IsForeign, Observed, Admitted;
    AdmittedAgree(done);
    MayFollowIsNoClash(done, e);
    PhaseIndex(done, e.admission);
    if PhaseMayFollow(done, e) { PhasesGrow(done, e); }
  }

  /** The phases of a slice are known outright: where every two of its relevant events agree,
      there is one phase for each admission, in order of appearance, with what its first event
      names, and the times of its first admission and first end; otherwise the slice is refused. */
  lemma PhasesAreKnown(inputs: seq<PhaseEvent>, session: string, origin: Option<string>)
    ensures var relevant := RelevantPhases(session, origin, inputs);
            var events := BySequence(PhaseSequence, relevant);
            && NativePhases(inputs, session, origin) == (if AllAgree(relevant) then Some(Table(PhaseKeyOf, PhaseFor, events)) else None)
            && IsSorted(PhaseSequence, events) && SameElements(events, relevant)
            && (forall e :: e in relevant <==> e in inputs && e.session == session && (origin.Some? ==> e.turn == origin.value))
  {
    hide PhaseStep, PhaseFor, PhasesAgree, RelevantPhases, Table, Fold, BySequence, IsSorted;
    RelevantPhaseElements(session, origin, inputs);
    SortSorts(PhaseSequence, RelevantPhases(session, origin, inputs));
    PhasesAreDescribed(BySequence(PhaseSequence, RelevantPhases(session, origin, inputs)));
  }

  lemma PhasesAreDescribed(events: seq<PhaseEvent>)
    ensures Fold(PhaseStep, [], events) == if AllAgree(events) then Some(Table(PhaseKeyOf, PhaseFor, events)) else None
  {
    hide PhaseStep, PhaseFor, PhaseMayFollow, Admitted, AllAgree, Fold, Keys;
    var described := (d: seq<PhaseEvent>) => Table(PhaseKeyOf, PhaseFor, d);
    forall d, e | Admitted(PhaseMayFollow, d)
      ensures PhaseStep(described(d), e) == if PhaseMayFollow(d, e) then Some(described(d + [e])) else None {
      PhaseStepDescribes(d, e);
    }
    NoPhasesYet();
    AdmittedAgree(events);
    FoldDescribes(PhaseStep, PhaseMayFollow, described, [], events);
    assert [] + events == events;
  }

  lemma NoPhasesYet()
    ensures Table(PhaseKeyOf, PhaseFor, []) == [] && Admitted(PhaseMayFollow, [])
  {}

  /** When a sequence identifies its event, the phases depend only on the set of events. */
  lemma PhasesIgnoreOrderAndRepetition(a: seq<PhaseEvent>, b: seq<PhaseEvent>, session: string, origin: Option<string>)
    requires SameElements(a, b) && Consistent(PhaseSequence, a)
    ensures NativePhases(a, session, origin) == NativePhases(b, session, origin)
  {
    var x, y := RelevantPhases(session, origin, a), RelevantPhases(session, origin, b);
    RelevantPhaseElements(session, origin, a);
    RelevantPhaseElements(session, origin, b);
    forall s, e | PhaseStep(s, e).Some? ensures PhaseStep(PhaseStep(s, e).value, e) == PhaseStep(s, e) {
      PhaseStepTwice(s, e);
    }
    SortSorts(PhaseSequence, x);
    SortSorts(PhaseSequence, y);
    IdempotentFold(PhaseStep, PhaseSequence, [], BySequence(PhaseSequence, x));
    IdempotentFold(PhaseStep, PhaseSequence, [], BySequence(PhaseSequence, y));
    OrderAndRepetitionDoNotMatter(PhaseStep, PhaseSequence, [], x, y);
  }

  /** Without it the order they come in shows: of two admissions recorded under one
      sequence, the first to come gives the time. */
  lemma PhasesMayShowTheOrder(session: string, admission: string, native: string, execution: string, turn: string, early: string, late: string)
    requires early != late
    ensures var first := PhaseEvent(session, turn, 1, early, true, admission, native, execution, None, None);
            var second := first.(createdAt := late);
            && NativePhases([first, second], session, None) != NativePhases([second, first], session, None)
            && SameElements([first, second], [second, first])
  {
    var first := PhaseEvent(session, turn, 1, early, true, admission, native, execution, None, None);
    var second := first.(createdAt := late);
    TwoAdmissions(first, second);
    TwoAdmissions(second, first);
  }

  lemma TwoAdmissions(first: PhaseEvent, second: PhaseEvent)
    requires first.admitted && second == first.(createdAt := second.createdAt) && first.status.None? && first.goal.None?
    ensures NativePhases([first, second], first.session, None)
         == Some([Phase(first.admission, first.native, first.execution, first.turn, None, Some(first.createdAt), None, None)])
  {
    var events := [first, second];
    assert events[1..] == [second] && [second][1..] == [];
    assert RelevantPhases(first.session, None, [second]) == [second];
    assert RelevantPhases(first.session, None, events) == events;
    assert BySequence(PhaseSequence, [second]) == [second];
    assert BySequence(PhaseSequence, events) == events;
    var one := [Phase(first.admission, first.native, first.execution, first.turn, None, Some(first.createdAt), None, None)];
    assert [] + one == one;
    assert PhaseStep([], first) == Some(one);
    assert one[0 := one[0]] == one && Observed(one[0], second) == one[0] && !IsForeign(one, second);
    assert PhaseStep(one, second) == Some(one);
    assert Fold(PhaseStep, one, [second]) == Some(one);
  }
}
