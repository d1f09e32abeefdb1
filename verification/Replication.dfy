/** Event replication from the runner's journal to the control plane's reducer, over a
    transport that may lose, repeat and reorder messages and sockets that come and go. */
module Replication {
  import opened CanonicalJson
  import opened SessionReducer
  import opened EventJournal
  import opened EventLink
  import opened Options

  datatype Message = EventMessage(event: Event) | SnapshotMessage(snapshot: Snapshot)

  datatype System = System(
    history: map<Text, seq<Event>>, retention: nat, link: Socket, wire: set<Message>, logs: Logs)

  datatype Action =
    | Emit(event: Event)
    | Resend(session: Text, index: nat)
    | Open
    | Close
    | Accept
    | ReplayAfter(cursor: Option<Cursor>)
    | SendSnapshot(session: Text, from: nat)
    | Deliver(message: Message)
    | Lose(message: Message)

  const START := System(map[], 1, CLOSED, {}, map[])

  function WithLink(s: System, link: Socket): System
    requires s.link.sent <= link.sent
  {
    s.(link := link, wire := s.wire + set e | e in link.sent[|s.link.sent|..] :: EventMessage(e))
  }

  /** One step; an action that is not enabled leaves the system as it is. */
  function Step(c: Collation, s: System, a: Action): System {
    match a
    case Emit(e) =>
      var log := Lookup(s.history, e.session);
      if e.sequence != |log| + 1 then s
      else
        var appended := s.(history := s.history[e.session := log + [e]]);
        if s.link.accepted then WithLink(appended, SendIfConnected(s.link, e)) else appended
    case Resend(session, index) =>
      if index >= |Lookup(s.history, session)| then s
      else WithLink(s, SendIfConnected(s.link, s.history[session][index]))
    case Open => s.(link := OPENED)
    case Close => s.(link := s.link.(open := false, accepted := false))
    case Accept => if s.link.open then s.(link := s.link.(accepted := true)) else s
    case ReplayAfter(cursor) =>
      ReplayExtends(s.link, s.history, s.retention, cursor);
      WithLink(s, ReplayOn(s.link, s.history, s.retention, cursor))
    case SendSnapshot(session, from) =>
      if !s.link.open || from >= |Lookup(s.history, session)| then s
      else s.(wire := s.wire + {SnapshotMessage(SuffixSnapshot(session, s.history[session], from))})
    case Deliver(m) =>
      if m !in s.wire then s
      else if m.EventMessage? then s.(logs := Reduce(c, s.logs, m.event))
      else s.(logs := ReduceSnapshot(c, s.logs, m.snapshot).0)
    case Lose(m) => s.(wire := s.wire - {m})
  }

  lemma ReplayExtends(k: Socket, history: map<Text, seq<Event>>, retention: nat, cursor: Option<Cursor>)
    ensures k.sent <= ReplayOn(k, history, retention, cursor).sent
  {
    if cursor.Some? { SendAllExtends(k, ReplayFor(history, retention, cursor.value).events); }
  }

  function Run(c: Collation, s: System, actions: seq<Action>): System
    decreases |actions|
  {
    if actions == [] then s else Step(c, Run(c, s, actions[..|actions| - 1]), actions[|actions| - 1])
  }

  predicate InHistory(history: map<Text, seq<Event>>, e: Event) {
    e.session in history && 1 <= e.sequence <= |history[e.session]| && history[e.session][e.sequence - 1] == e
  }

  predicate FromHistory(history: map<Text, seq<Event>>, m: Message) {
    match m
    case EventMessage(e) => InHistory(history, e)
    case SnapshotMessage(t) =>
      && t.session in history
      && SchemaValid(t)
      && t.throughSequence <= |history[t.session]|
      && t.events == history[t.session][t.fromSequence - 1..t.throughSequence]
  }

  ghost predicate HistoriesAre(history: map<Text, seq<Event>>) {
    forall session | session in history :: IsHistory(session, history[session])
  }

  /** Every log the control plane holds is a prefix of the runner's journal. */
  ghost predicate LogsArePrefixes(s: System) {
    forall session | session in s.logs ::
      && session in s.history && s.logs[session] != []
      && s.logs[session] <= s.history[session]
  }

  ghost predicate Inv(s: System) {
    && HistoriesAre(s.history)
    && (forall m | m in s.wire :: FromHistory(s.history, m))
    && LogsArePrefixes(s)
  }

  lemma JournalIsHistory(history: map<Text, seq<Event>>, session: Text, k: nat)
    requires HistoriesAre(history) && k < |Lookup(history, session)|
    ensures InHistory(history, Lookup(history, session)[k])
  {
    assert IsHistory(session, history[session]);
  }

  lemma OwedAreHistory(history: map<Text, seq<Event>>, retention: nat, entry: (Text, nat), e: Event)
    requires HistoriesAre(history)
    requires var owed := EventsAfter(Lookup(history, entry.0), retention, entry.1); owed.Some? && e in owed.value
    ensures InHistory(history, e)
  {
    hide Newest, HistoriesAre, InHistory, Lookup;
    var journal := Lookup(history, entry.0);
    var i :| 0 <= i < |journal[entry.1..]| && journal[entry.1..][i] == e;
    JournalIsHistory(history, entry.0, entry.1 + i);
  }

  lemma {:induction false} OwedEventsAreHistory(history: map<Text, seq<Event>>, retention: nat, cursor: Cursor)
    requires HistoriesAre(history)
    ensures forall e | e in ReplayFor(history, retention, cursor).events :: InHistory(history, e)
  {
    hide HistoriesAre, EventsAfter, InHistory;
    if cursor != [] {
      OwedEventsAreHistory(history, retention, cursor[..|cursor| - 1]);
      var entry := cursor[|cursor| - 1];
      var owed := EventsAfter(Lookup(history, entry.0), retention, entry.1);
      if owed.Some? {
        forall e | e in owed.value ensures InHistory(history, e) { OwedAreHistory(history, retention, entry, e); }
      }
    }
  }

  lemma WithLinkKeepsInv(s: System, link: Socket)
    requires Inv(s) && s.link.sent <= link.sent
    requires forall e | e in link.sent[|s.link.sent|..] :: InHistory(s.history, e)
    ensures Inv(WithLink(s, link))
  {}

  lemma EmitKeepsInv(s: System, e: Event)
    requires Inv(s) && e.sequence == |Lookup(s.history, e.session)| + 1
    ensures Inv(s.(history := s.history[e.session := Lookup(s.history, e.session) + [e]]))
  {
    hide FromHistory, IsHistory;
    AppendKeepsHistories(s.history, e);
    forall m | m in s.wire { MessageStays(s.history, e, m); }
  }

  lemma AppendKeepsHistories(history: map<Text, seq<Event>>, e: Event)
    requires HistoriesAre(history) && e.sequence == |Lookup(history, e.session)| + 1
    ensures HistoriesAre(history[e.session := Lookup(history, e.session) + [e]])
  {}

  lemma MessageStays(history: map<Text, seq<Event>>, e: Event, m: Message)
    requires FromHistory(history, m)
    ensures FromHistory(history[e.session := Lookup(history, e.session) + [e]], m)
  {
    if m.SnapshotMessage? && m.snapshot.session == e.session {
      var t, after := m.snapshot, Lookup(history, e.session) + [e];
      assert t.events == after[t.fromSequence - 1..t.throughSequence];
    }
  }

  lemma DeliverEventKeepsInv(c: Collation, s: System, e: Event)
    requires Inv(s) && InHistory(s.history, e)
    ensures Inv(s.(logs := Reduce(c, s.logs, e))) && !Outcome(c, s.logs, e).Conflict?
  {
    var log := LogOf(s.logs, e.session);
    if e.sequence == |log| + 1 {
      assert log + [e] <= s.history[e.session];
    }
  }

  lemma SnapshotFacts(history: map<Text, seq<Event>>, t: Snapshot)
    requires FromHistory(history, SnapshotMessage(t))
    ensures t.session in history && t.events != [] && forall i | 0 <= i < |t.events| :: t.events[i].session == t.session
    ensures t.complete ==> t.events <= history[t.session]
  {}

  lemma DeliverSnapshotKeepsInv(c: Collation, s: System, t: Snapshot)
    requires Inv(s) && FromHistory(s.history, SnapshotMessage(t))
    ensures Inv(s.(logs := ReduceSnapshot(c, s.logs, t).0))
    ensures ReduceSnapshot(c, s.logs, t).1.SnapshotRefused? ==> ReduceSnapshot(c, s.logs, t).1.reason.Gap?
  {
    hide SchemaValid, HistoriesAre, IsHistory, Reduce, ReducePartial;
    SnapshotFacts(s.history, t);
    if !t.complete {
      DeliverPartial(c, s.history, s.logs, t);
      PartialKeepsSessions(c, s.logs, t.events, t.session, 0, 0, t.tombstones);
      var after := ReduceSnapshot(c, s.logs, t).0;
      forall session | session in after
        ensures session in s.history && after[session] != [] && after[session] <= s.history[session]
      {
        assert after[session] == LogOf(after, session);
      }
    }
  }

  lemma DeliverPartial(c: Collation, history: map<Text, seq<Event>>, logs: Logs, t: Snapshot)
    requires FromHistory(history, SnapshotMessage(t)) && !t.complete
    requires LogOf(logs, t.session) <= history[t.session]
    ensures var (after, result) := ReduceSnapshot(c, logs, t);
            && LogOf(after, t.session) <= history[t.session]
            && (forall s | s != t.session :: LogOf(after, s) == LogOf(logs, s))
            && (result.SnapshotRefused? ==> result.reason.Gap?)
  {
    hide ReduceSnapshot, ReducePartial, Reduce;
    var log := LogOf(logs, t.session);
    OverlapAgrees(c, history[t.session], log, t);
    PartialSnapshotIsAtomic(c, logs, t);
  }

  /** A slice of the journal agrees with a prefix of it, and continues it to a prefix. */
  lemma OverlapAgrees(c: Collation, journal: seq<Event>, log: seq<Event>, t: Snapshot)
    requires SchemaValid(t) && t.throughSequence <= |journal| && t.events == journal[t.fromSequence - 1..t.throughSequence]
    requires log <= journal
    ensures Agrees(c, log, t)
    ensures t.fromSequence <= |log| + 1 ==> log + t.events[OverlapLength(log, t)..] <= journal
  {
    if t.fromSequence <= |log| + 1 {
      var n := OverlapLength(log, t);
      var all := log + t.events[n..];
      forall i | 0 <= i < |all| ensures i < |journal| && all[i] == journal[i] {
        if i >= |log| { assert t.events[n..][i - |log|] == t.events[n + i - |log|]; }
      }
    }
  }

  lemma PartialKeepsSessions(c: Collation, logs: Logs, events: seq<Event>, session: Text, applied: nat, duplicates: nat, tombstones: seq<Json>)
    requires forall i | 0 <= i < |events| :: events[i].session == session
    requires forall t | t in logs :: logs[t] != []
    ensures var after := ReducePartial(c, logs, events, applied, duplicates, tombstones).0;
            && after.Keys <= logs.Keys + {session}
            && forall t | t in after :: after[t] != []
    decreases events
  {
    if events != [] && !IsRefusal(Outcome(c, logs, events[0])) {
      PartialKeepsSessions(c, Reduce(c, logs, events[0]), events[1..], session, applied + 1, duplicates, tombstones);
      PartialKeepsSessions(c, Reduce(c, logs, events[0]), events[1..], session, applied, duplicates + 1, tombstones);
    }
  }

  lemma EmitStepKeepsInv(c: Collation, s: System, e: Event)
    requires Inv(s)
    ensures Inv(Step(c, s, Emit(e)))
  {
    if e.sequence == |Lookup(s.history, e.session)| + 1 {
      EmitKeepsInv(s, e);
      var appended := s.(history := s.history[e.session := Lookup(s.history, e.session) + [e]]);
      hide Inv, IsHistory;
      WithLinkKeepsInv(appended, SendIfConnected(s.link, e));
    }
  }

  lemma ReplayKeepsInv(s: System, cursor: Option<Cursor>)
    requires Inv(s)
    ensures s.link.sent <= ReplayOn(s.link, s.history, s.retention, cursor).sent
    ensures Inv(WithLink(s, ReplayOn(s.link, s.history, s.retention, cursor)))
  {
    ReplayExtends(s.link, s.history, s.retention, cursor);
    if cursor.Some? {
      OwedEventsAreHistory(s.history, s.retention, cursor.value);
      SendAllExtends(s.link, ReplayFor(s.history, s.retention, cursor.value).events);
    }
    WithLinkKeepsInv(s, ReplayOn(s.link, s.history, s.retention, cursor));
  }

  lemma SuffixIsFromHistory(history: map<Text, seq<Event>>, session: Text, from: nat)
    requires HistoriesAre(history) && from < |Lookup(history, session)|
    ensures FromHistory(history, SnapshotMessage(SuffixSnapshot(session, history[session], from)))
  {
    SuffixSnapshotIsValid(session, history[session], from);
    hide SchemaValid;
  }

  lemma SendKeepsInv(s: System, e: Event)
    requires Inv(s) && 1 <= e.sequence <= |Lookup(s.history, e.session)| && s.history[e.session][e.sequence - 1] == e
    ensures Inv(WithLink(s, SendIfConnected(s.link, e)))
  {
    WithLinkKeepsInv(s, SendIfConnected(s.link, e));
  }

  lemma DeliverKeepsInv(c: Collation, s: System, m: Message)
    requires Inv(s) && m in s.wire
    ensures Inv(Step(c, s, Deliver(m)))
  {
    hide HistoriesAre, LogsArePrefixes, SchemaValid, Reduce, ReduceSnapshot;
    assert FromHistory(s.history, m);
    if m.EventMessage? { DeliverEventKeepsInv(c, s, m.event); } else { DeliverSnapshotKeepsInv(c, s, m.snapshot); }
  }

  lemma StepKeepsInv(c: Collation, s: System, a: Action)
    requires Inv(s)
    ensures Inv(Step(c, s, a))
  {
    hide FromHistory, Reduce, ReduceSnapshot, ReplayOn, SuffixSnapshot, SendIfConnected;
    match a
    case Emit(e) => EmitStepKeepsInv(c, s, e);
    case Resend(session, index) =>
      if index < |Lookup(s.history, session)| { SendKeepsInv(s, s.history[session][index]); }
    case Open =>
    case Close =>
    case Accept =>
    case ReplayAfter(cursor) => ReplayKeepsInv(s, cursor);
    case SendSnapshot(session, from) =>
      if from < |Lookup(s.history, session)| { SuffixIsFromHistory(s.history, session, from); }
    case Deliver(m) =>
      if m in s.wire { DeliverKeepsInv(c, s, m); }
    case Lose(_) =>
  }

  /** Safety over whole runs: whatever is lost, repeated, reordered, reconnected or sent as a
      snapshot, each log is a prefix of the journal, no delivery is ever a conflict, and the
      cursor that the logs' lengths form never runs ahead of the journal. */
  lemma {:induction false} EveryRunIsSafe(c: Collation, retention: nat, actions: seq<Action>)
    ensures var s := Run(c, START.(retention := retention), actions);
            && Inv(s)
            && LogsArePrefixes(s)
            && (forall session :: |LogOf(s.logs, session)| <= |Lookup(s.history, session)|)
            && (forall m | m in s.wire && m.EventMessage? :: !Outcome(c, s.logs, m.event).Conflict?)
    decreases |actions|
  {
    var s := Run(c, START.(retention := retention), actions);
    if actions != [] {
      EveryRunIsSafe(c, retention, actions[..|actions| - 1]);
      StepKeepsInv(c, Run(c, START.(retention := retention), actions[..|actions| - 1]), actions[|actions| - 1]);
    }
    forall m | m in s.wire && m.EventMessage? ensures !Outcome(c, s.logs, m.event).Conflict? {
      DeliverEventKeepsInv(c, s, m.event);
    }
  }

  // ---------- What deliveries achieve ----------

  function SessionOf(m: Message): Text { if m.EventMessage? then m.event.session else m.snapshot.session }

  /** How many of its session's events the control plane holds after the message, having held
      the first `have` before: a complete snapshot sets the number, a partial one or an event
      raises it unless something before it is missing. */
  function HeldAfter(m: Message, have: nat): int {
    match m
    case EventMessage(e) => if e.sequence == have + 1 then have + 1 else have
    case SnapshotMessage(t) =>
      if t.complete || t.fromSequence <= have + 1 <= t.throughSequence then t.throughSequence else have
  }

  /** What the reducer says of a snapshot: a gap, or how many of its events were applied. */
  predicate SnapshotIsReported(t: Snapshot, have: nat, result: SnapshotResult) {
    if t.complete then result == SnapshotApplied(true, |t.events|, 0, t.tombstones)
    else if t.fromSequence > have + 1 then result == SnapshotRefused(Gap(t.session, have + 1, t.fromSequence))
    else
      && result.SnapshotApplied? && !result.complete && result.tombstones == t.tombstones
      && result.applied == HeldAfter(SnapshotMessage(t), have) - have && result.applied + result.duplicates == |t.events|
  }

  predicate EventIsReported(e: Event, have: nat, result: ApplyResult) {
    result == if e.sequence == have + 1 then Applied(e) else if e.sequence <= have then Duplicate(e) else Gap(e.session, have + 1, e.sequence)
  }

  /** In every reachable state a delivery takes the log of its session to exactly that many of
      the journal's events, whatever was lost, repeated or reordered before, and leaves every
      other log alone; and the reducer reports what it did. */
  lemma DeliveriesAdvance(c: Collation, retention: nat, actions: seq<Action>, m: Message)
    requires m in Run(c, START.(retention := retention), actions).wire
    ensures var s := Run(c, START.(retention := retention), actions);
            var after, have := Step(c, s, Deliver(m)), |LogOf(s.logs, SessionOf(m))|;
            && 0 <= HeldAfter(m, have) <= |Lookup(s.history, SessionOf(m))|
            && LogOf(after.logs, SessionOf(m)) == Lookup(s.history, SessionOf(m))[..HeldAfter(m, have)]
            && (forall other | other != SessionOf(m) :: LogOf(after.logs, other) == LogOf(s.logs, other))
            && after == s.(logs := after.logs)
            && (m.EventMessage? ==> EventIsReported(m.event, have, Outcome(c, s.logs, m.event)))
            && (m.SnapshotMessage? ==> SnapshotIsReported(m.snapshot, have, ReduceSnapshot(c, s.logs, m.snapshot).1))
  {
    EveryRunIsSafe(c, retention, actions);
    DeliveryAdvances(c, Run(c, START.(retention := retention), actions), m);
  }

  lemma DeliveryAdvances(c: Collation, s: System, m: Message)
    requires Inv(s) && m in s.wire
    ensures var after, have := Step(c, s, Deliver(m)), |LogOf(s.logs, SessionOf(m))|;
            && 0 <= HeldAfter(m, have) <= |Lookup(s.history, SessionOf(m))|
            && LogOf(after.logs, SessionOf(m)) == Lookup(s.history, SessionOf(m))[..HeldAfter(m, have)]
            && (forall other | other != SessionOf(m) :: LogOf(after.logs, other) == LogOf(s.logs, other))
            && after == s.(logs := after.logs)
            && (m.EventMessage? ==> EventIsReported(m.event, have, Outcome(c, s.logs, m.event)))
            && (m.SnapshotMessage? ==> SnapshotIsReported(m.snapshot, have, ReduceSnapshot(c, s.logs, m.snapshot).1))
  {
    hide Reduce, ReduceSnapshot, Outcome, EventIsReported, SnapshotIsReported, Inv;
    LogsReachable(s, m);
    if m.EventMessage? {
      EventAdvances(c, s.history, s.logs, m.event);
    } else if m.snapshot.complete {
      CompleteAdvances(c, s.history, s.logs, m.snapshot);
    } else {
      PartialAdvances(c, s.history, s.logs, m.snapshot);
    }
  }

  lemma LogsReachable(s: System, m: Message)
    requires Inv(s) && m in s.wire
    ensures FromHistory(s.history, m) && LogOf(s.logs, SessionOf(m)) <= Lookup(s.history, SessionOf(m))
  {
    hide HistoriesAre, SchemaValid;
  }

  lemma EventAdvances(c: Collation, history: map<Text, seq<Event>>, logs: Logs, e: Event)
    requires InHistory(history, e) && LogOf(logs, e.session) <= Lookup(history, e.session)
    ensures var journal, have := Lookup(history, e.session), |LogOf(logs, e.session)|;
            && LogOf(Reduce(c, logs, e), e.session) == journal[..HeldAfter(EventMessage(e), have)]
            && (forall other | other != e.session :: LogOf(Reduce(c, logs, e), other) == LogOf(logs, other))
            && 0 <= HeldAfter(EventMessage(e), have) <= |journal| && EventIsReported(e, have, Outcome(c, logs, e))
  {
    var journal, log := Lookup(history, e.session), LogOf(logs, e.session);
    assert log == journal[..|log|];
    if e.sequence == |log| + 1 { assert log + [e] == journal[..|log| + 1]; }
  }

  lemma CompleteAdvances(c: Collation, history: map<Text, seq<Event>>, logs: Logs, t: Snapshot)
    requires FromHistory(history, SnapshotMessage(t)) && t.complete
    ensures var (after, result) := ReduceSnapshot(c, logs, t);
            && 0 <= t.throughSequence <= |history[t.session]| && LogOf(after, t.session) == history[t.session][..t.throughSequence]
            && (forall other | other != t.session :: LogOf(after, other) == LogOf(logs, other))
            && |t.events| == t.throughSequence && SnapshotIsReported(t, |LogOf(logs, t.session)|, result)
  {
    assert t.fromSequence == 1 && history[t.session][0..t.throughSequence] == history[t.session][..t.throughSequence];
  }

  lemma PartialAdvances(c: Collation, history: map<Text, seq<Event>>, logs: Logs, t: Snapshot)
    requires FromHistory(history, SnapshotMessage(t)) && !t.complete
    requires LogOf(logs, t.session) <= history[t.session]
    ensures var (after, result) := ReduceSnapshot(c, logs, t);
            var journal, have := history[t.session], |LogOf(logs, t.session)|;
            var held := HeldAfter(SnapshotMessage(t), have);
            && 0 <= held <= |journal| && LogOf(after, t.session) == journal[..held]
            && (forall other | other != t.session :: LogOf(after, other) == LogOf(logs, other))
            && SnapshotIsReported(t, have, result)
  {
    hide ReduceSnapshot, ReducePartial, Reduce, Agrees, SchemaValid, LogOf, OverlapLength;
    var journal, log := history[t.session], LogOf(logs, t.session);
    PartialFacts(history, t);
    assert log == journal[..|log|];
    OverlapAgrees(c, journal, log, t);
    PartialSnapshotIsAtomic(c, logs, t);
    if t.fromSequence <= |log| + 1 { OverlapReaches(journal, log, t); }
  }

  lemma PartialFacts(history: map<Text, seq<Event>>, t: Snapshot)
    requires FromHistory(history, SnapshotMessage(t)) && !t.complete
    ensures t.session in history && SchemaValid(t) && t.fromSequence >= 1 && |t.events| == t.throughSequence + 1 - t.fromSequence
    ensures t.throughSequence <= |history[t.session]| && t.events == history[t.session][t.fromSequence - 1..t.throughSequence]
  {}

  /** The log and what the slice adds to it are the journal up to the later of their ends. */
  lemma OverlapReaches(journal: seq<Event>, log: seq<Event>, t: Snapshot)
    requires SchemaValid(t) && t.throughSequence <= |journal| && t.fromSequence <= |log| + 1 && |log| <= |journal| && log + t.events[OverlapLength(log, t)..] <= journal
    ensures var held, n := if |log| + 1 <= t.throughSequence then t.throughSequence else |log|, OverlapLength(log, t);
            log + t.events[n..] == journal[..held] && |t.events| - n == held - |log|
  {}

  /** However far behind, and on whatever log, a control plane that is sent a complete snapshot
      and takes delivery of it holds the whole journal of the session; the next event is then
      applied. */
  lemma SnapshotsCatchUp(c: Collation, retention: nat, actions: seq<Action>, session: Text)
    requires var s := Run(c, START.(retention := retention), actions); s.link.open && Lookup(s.history, session) != []
    ensures var s := Run(c, START.(retention := retention), actions);
            var message := SnapshotMessage(SuffixSnapshot(session, s.history[session], 0));
            var caughtUp := Step(c, Step(c, s, SendSnapshot(session, 0)), Deliver(message));
            && LogOf(caughtUp.logs, session) == s.history[session]
            && forall e: Event | e.session == session && e.sequence == |s.history[session]| + 1 :: Outcome(c, caughtUp.logs, e) == Applied(e)
  {
    var s, more := Run(c, START.(retention := retention), actions), actions + [SendSnapshot(session, 0)];
    assert more[..|more| - 1] == actions;
    DeliveriesAdvance(c, retention, more, SnapshotMessage(SuffixSnapshot(session, s.history[session], 0)));
    assert s.history[session][..|s.history[session]|] == s.history[session];
    hide Run, ReduceSnapshot;
  }

  /** No mark is above the journal, */
  ghost predicate MarksAreReal(s: System) { forall session :: HighWater(s.link, session) <= |Lookup(s.history, session)| }

  lemma SendKeepsMarks(history: map<Text, seq<Event>>, k: Socket, e: Event)
    requires forall session :: HighWater(k, session) <= |Lookup(history, session)|
    requires e.sequence <= |Lookup(history, e.session)|
    ensures forall session :: HighWater(SendIfConnected(k, e), session) <= |Lookup(history, session)|
  {}

  lemma {:induction false} SendAllKeepsMarks(history: map<Text, seq<Event>>, k: Socket, events: seq<Event>)
    requires forall session :: HighWater(k, session) <= |Lookup(history, session)|
    requires forall e | e in events :: e.sequence <= |Lookup(history, e.session)|
    ensures forall session :: HighWater(SendAll(k, events), session) <= |Lookup(history, session)|
    decreases |events|
  {
    if events != [] {
      var n := |events| - 1;
      SendAllKeepsMarks(history, k, events[..n]);
      SendKeepsMarks(history, SendAll(k, events[..n]), events[n]);
    }
  }

  lemma StepKeepsMarks(c: Collation, s: System, a: Action)
    requires Inv(s) && MarksAreReal(s)
    ensures MarksAreReal(Step(c, s, a))
  {
    hide FromHistory, LogsArePrefixes, Reduce, ReduceSnapshot, SuffixSnapshot;
    match a
    case Emit(e) =>
      if e.sequence == |Lookup(s.history, e.session)| + 1 {
        var grown := s.history[e.session := Lookup(s.history, e.session) + [e]];
        assert forall session :: HighWater(s.link, session) <= |Lookup(grown, session)|;
        SendKeepsMarks(grown, s.link, e);
      }
    case Resend(session, index) =>
      if index < |Lookup(s.history, session)| { SendKeepsMarks(s.history, s.link, s.history[session][index]); }
    case ReplayAfter(cursor) => if cursor.Some? { ReplayKeepsMarks(s, cursor.value); }
    case _ =>
  }

  lemma ReplayKeepsMarks(s: System, cursor: Cursor)
    requires Inv(s) && MarksAreReal(s)
    ensures forall session :: HighWater(ReplayOn(s.link, s.history, s.retention, Some(cursor)), session) <= |Lookup(s.history, session)|
  {
    OwedEventsAreHistory(s.history, s.retention, cursor);
    SendAllKeepsMarks(s.history, s.link, ReplayFor(s.history, s.retention, cursor).events);
  }

  lemma {:induction false} RunKeepsMarks(c: Collation, retention: nat, actions: seq<Action>)
    ensures MarksAreReal(Run(c, START.(retention := retention), actions))
    decreases |actions|
  {
    hide MarksAreReal, Step, Inv;
    if actions == [] {
      StartMarks(retention);
    } else {
      var n := |actions| - 1;
      RunKeepsMarks(c, retention, actions[..n]);
      EveryRunIsSafe(c, retention, actions[..n]);
      StepKeepsMarks(c, Run(c, START.(retention := retention), actions[..n]), actions[n]);
    }
  }

  lemma StartMarks(retention: nat)
    ensures MarksAreReal(START.(retention := retention))
  {}

  /** so an event emitted while a socket is accepted goes out on it, and reaches a control plane
      that holds the journal up to it. */
  lemma LiveEventsArrive(c: Collation, retention: nat, actions: seq<Action>, e: Event)
    requires var s := Run(c, START.(retention := retention), actions);
             && s.link.open && s.link.accepted && e.sequence == |Lookup(s.history, e.session)| + 1
             && LogOf(s.logs, e.session) == Lookup(s.history, e.session)
    ensures var s := Run(c, START.(retention := retention), actions);
            var emitted := Step(c, s, Emit(e));
            var delivered := Step(c, emitted, Deliver(EventMessage(e)));
            && emitted.link.sent == s.link.sent + [e] && EventMessage(e) in emitted.wire
            && Lookup(emitted.history, e.session) == Lookup(s.history, e.session) + [e]
            && LogOf(delivered.logs, e.session) == Lookup(emitted.history, e.session)
  {
    RunKeepsMarks(c, retention, actions);
    var s := Run(c, START.(retention := retention), actions);
    assert HighWater(s.link, e.session) < e.sequence;
    assert (s.link.sent + [e])[|s.link.sent|..] == [e];
    hide Run, MarksAreReal;
  }

  /** An event sent once more goes out exactly on an open socket that has carried nothing as late;
      a lost message is gone, and nothing else changes. */
  lemma ResendsGoOut(c: Collation, s: System, session: Text, index: nat, m: Message)
    requires index < |Lookup(s.history, session)|
    ensures var e, resent := Lookup(s.history, session)[index], Step(c, s, Resend(session, index));
            if s.link.open && e.sequence > HighWater(s.link, e.session) then
              && resent.link.sent == s.link.sent + [e] && resent.wire == s.wire + {EventMessage(e)} && HighWater(resent.link, e.session) == e.sequence
              && resent.history == s.history && resent.logs == s.logs
            else resent == s
    ensures Step(c, s, Lose(m)) == s.(wire := s.wire - {m})
  {
    var e := Lookup(s.history, session)[index];
    assert (s.link.sent + [e])[|s.link.sent|..] == [e];
    assert s.link.sent[|s.link.sent|..] == [];
  }

  lemma ClosedStepsCarryNothing(c: Collation, s: System, a: Action)
    requires !s.link.open && a != Open
    ensures !Step(c, s, a).link.open && Step(c, s, a).wire <= s.wire
  {
    match a
    case ReplayAfter(cursor) => if cursor.Some? { ClosedSendsNothing(s.link, ReplayFor(s.history, s.retention, cursor.value).events); }
    case _ =>
  }

  lemma {:induction false} ClosedSendsNothing(k: Socket, events: seq<Event>)
    requires !k.open
    ensures SendAll(k, events) == k
  {
    if events != [] { ClosedSendsNothing(k, events[..|events| - 1]); }
  }

  /** From the moment its socket is closed until one is opened, nothing new is on its way: the
      wire only holds what it held. */
  lemma {:induction false} ClosedSocketsCarryNothing(c: Collation, s: System, actions: seq<Action>)
    requires forall i | 0 <= i < |actions| :: actions[i] != Open
    ensures !Run(c, Step(c, s, Close), actions).link.open && Run(c, Step(c, s, Close), actions).wire <= s.wire
    decreases |actions|
  {
    if actions != [] {
      hide Step;
      ClosedSocketsCarryNothing(c, s, actions[..|actions| - 1]);
      ClosedStepsCarryNothing(c, Run(c, Step(c, s, Close), actions[..|actions| - 1]), actions[|actions| - 1]);
    }
  }

  /** A closed socket is not accepted either, and a new one carries nothing and starts its marks
      anew; only an open one is accepted. */
  lemma SocketsComeAndGo(c: Collation, s: System)
    ensures !Step(c, s, Close).link.accepted && Step(c, s, Open).link == Socket(true, false, map[], [])
    ensures Step(c, s, Accept) == if s.link.open then s.(link := s.link.(accepted := true)) else s
  {}
}
