/** One socket's life: what the runner sends before, during and after the replay, and
    exactly when delivering it in order brings the control plane's log up to date. */
module Continuity {
  import opened CanonicalJson
  import opened SessionReducer
  import opened EventJournal
  import opened EventLink
  import opened Replication
  import opened Options

  predicate Carries(sent: seq<Event>, session: Text, q: int) {
    exists i | 0 <= i < |sent| :: sent[i].session == session && sent[i].sequence == q
  }

  lemma CarriesAppended(sent: seq<Event>, e: Event, session: Text, q: int)
    ensures Carries(sent + [e], session, q) <==> Carries(sent, session, q) || (e.session == session && e.sequence == q)
  {
    var all := sent + [e];
    assert all[|sent|] == e;
    if Carries(sent, session, q) {
      var i :| 0 <= i < |sent| && sent[i].session == session && sent[i].sequence == q;
      assert all[i] == sent[i];
    }
  }

  ghost predicate IsReal(history: map<Text, seq<Event>>, k: Socket) {
    forall i | 0 <= i < |k.sent| ::
      InHistory(history, k.sent[i]) && k.sent[i].sequence <= HighWater(k, k.sent[i].session)
  }

  ghost predicate IsAscending(sent: seq<Event>) {
    forall i, j | 0 <= i < j < |sent| && sent[i].session == sent[j].session :: sent[i].sequence < sent[j].sequence
  }

  ghost predicate MarksAreSent(k: Socket) {
    forall session :: HighWater(k, session) == 0 || Carries(k.sent, session, HighWater(k, session))
  }

  /** Per session the socket carries strictly increasing sequences, all real events. */
  ghost predicate Orderly(history: map<Text, seq<Event>>, k: Socket) {
    k.open && HistoriesAre(history) && IsReal(history, k) && IsAscending(k.sent) && MarksAreSent(k)
  }

  predicate BeforeReplay(a: Action) { a.Emit? || a.Resend? || a.Accept? }

  predicate AfterReplay(a: Action) { a.Emit? || a.Resend? }

  predicate Goes(k: Socket, e: Event, session: Text) { e.session == session && e.sequence > HighWater(k, session) }

  lemma SendEffect(k: Socket, e: Event, session: Text)
    requires k.open
    ensures var after := SendIfConnected(k, e);
            && (forall q :: Carries(after.sent, session, q) <==> Carries(k.sent, session, q) || (Goes(k, e, session) && q == e.sequence))
            && HighWater(after, session) == if Goes(k, e, session) then e.sequence else HighWater(k, session)
  {
    forall q ensures Carries(SendIfConnected(k, e).sent, session, q)
                <==> Carries(k.sent, session, q) || (Goes(k, e, session) && q == e.sequence)
    {
      CarriesAppended(k.sent, e, session, q);
    }
  }

  lemma SendKeepsOrder(history: map<Text, seq<Event>>, k: Socket, e: Event)
    requires Orderly(history, k) && InHistory(history, e)
    ensures Orderly(history, SendIfConnected(k, e))
  {
    var after := SendIfConnected(k, e);
    forall session ensures HighWater(after, session) == 0 || Carries(after.sent, session, HighWater(after, session)) {
      SendEffect(k, e, session);
    }
  }

  lemma LiveStepKeepsOrder(c: Collation, s: System, a: Action)
    requires Orderly(s.history, s.link) && BeforeReplay(a)
    ensures Orderly(Step(c, s, a).history, Step(c, s, a).link)
  {
    hide Orderly, SendIfConnected, ReplayOn, Reduce, ReduceSnapshot;
    match a
    case Emit(e) =>
      if e.sequence == |Lookup(s.history, e.session)| + 1 { EmitKeepsOrder(s.history, s.link, e); }
    case Resend(session, index) =>
      if index < |Lookup(s.history, session)| { ResendKeepsOrder(s.history, s.link, session, index); }
    case Accept => AcceptKeepsOrder(s.history, s.link);
  }

  /** An event appended to the journal and, if it is sent, sent. */
  lemma EmitKeepsOrder(history: map<Text, seq<Event>>, k: Socket, e: Event)
    requires Orderly(history, k) && e.sequence == |Lookup(history, e.session)| + 1
    ensures var grown := history[e.session := Lookup(history, e.session) + [e]];
            k.open && Orderly(grown, k) && Orderly(grown, SendIfConnected(k, e))
  {
    hide IsAscending, MarksAreSent;
    AppendKeepsHistories(history, e);
    var grown := history[e.session := Lookup(history, e.session) + [e]];
    assert Orderly(grown, k);
    SendKeepsOrder(grown, k, e);
  }

  lemma ResendKeepsOrder(history: map<Text, seq<Event>>, k: Socket, session: Text, index: nat)
    requires Orderly(history, k) && index < |Lookup(history, session)|
    ensures k.open && Orderly(history, SendIfConnected(k, history[session][index]))
  {
    assert IsHistory(session, history[session]);
    hide IsAscending, MarksAreSent, IsReal;
    SendKeepsOrder(history, k, history[session][index]);
  }

  lemma AcceptKeepsOrder(history: map<Text, seq<Event>>, k: Socket)
    requires Orderly(history, k)
    ensures Orderly(history, k.(accepted := true))
  {
    var after := k.(accepted := true);
    assert forall session :: HighWater(after, session) == HighWater(k, session);
  }

  lemma {:induction false} LiveRunKeepsOrder(c: Collation, s: System, actions: seq<Action>)
    requires Orderly(s.history, s.link) && forall a | a in actions :: BeforeReplay(a)
    ensures Orderly(Run(c, s, actions).history, Run(c, s, actions).link)
    decreases |actions|
  {
    if actions != [] {
      LiveRunKeepsOrder(c, s, actions[..|actions| - 1]);
      LiveStepKeepsOrder(c, Run(c, s, actions[..|actions| - 1]), actions[|actions| - 1]);
    }
  }

  // ---------- What the replay itself sends ----------

  lemma {:induction false} SendAllKeepsOrder(history: map<Text, seq<Event>>, k: Socket, events: seq<Event>)
    requires Orderly(history, k) && forall e | e in events :: InHistory(history, e)
    ensures Orderly(history, SendAll(k, events))
    decreases |events|
  {
    if events != [] {
      SendAllKeepsOrder(history, k, events[..|events| - 1]);
      SendKeepsOrder(history, SendAll(k, events[..|events| - 1]), events[|events| - 1]);
    }
  }

  function Max(a: int, b: int): int { if a > b then a else b }

  /** Offered the sequences from + 1 .. to of a session, the socket takes those above its mark. */
  lemma {:induction false} SendAllFor(k: Socket, events: seq<Event>, session: Text, from: int)
    requires k.open && OfferedTo(events, session) == Upwards(from, |OfferedTo(events, session)|)
    ensures var after, to := SendAll(k, events), from + |OfferedTo(events, session)|;
            && (forall q :: Carries(after.sent, session, q)
                       <==> Carries(k.sent, session, q) || (HighWater(k, session) < q && from < q <= to))
            && HighWater(after, session) == if to > from then Max(to, HighWater(k, session)) else HighWater(k, session)
    decreases |events|
  {
    if events != [] {
      var init, last := events[..|events| - 1], events[|events| - 1];
      var n := |OfferedTo(init, session)|;
      assert OfferedTo(init, session) == OfferedTo(events, session)[..n];
      assert OfferedTo(init, session) == Upwards(from, n);
      SendAllFor(k, init, session, from);
      SendAllExtends(k, init);
      SendEffect(SendAll(k, init), last, session);
      if last.session == session { assert last.sequence == OfferedTo(events, session)[n]; }
    }
  }

  function Upwards(from: int, n: nat): seq<int> { seq(n, i => from + i + 1) }

  function OfferedTo(events: seq<Event>, session: Text): seq<int>
    decreases |events|
  {
    if events == [] then []
    else
      var last := events[|events| - 1];
      OfferedTo(events[..|events| - 1], session) + if last.session == session then [last.sequence] else []
  }

  lemma {:induction false} OfferedSplits(a: seq<Event>, b: seq<Event>, session: Text)
    ensures OfferedTo(a + b, session) == OfferedTo(a, session) + OfferedTo(b, session)
    decreases |b|
  {
    if b == [] {
      assert a + b == a;
    } else {
      assert (a + b)[..|a + b| - 1] == a + b[..|b| - 1];
      OfferedSplits(a, b[..|b| - 1], session);
    }
  }

  lemma {:induction false} OfferedWithin(owner: Text, events: seq<Event>, session: Text, from: int)
    requires forall i | 0 <= i < |events| :: events[i].session == owner && events[i].sequence == from + i + 1
    ensures OfferedTo(events, session) == if owner == session then Upwards(from, |events|) else []
    decreases |events|
  {
    if events != [] {
      OfferedWithin(owner, events[..|events| - 1], session, from);
    }
  }

  /** The cursor names the session once, as its entry `at`, asking for what follows `from`. */
  predicate NamesOnce(cursor: Cursor, at: nat, session: Text, from: nat) {
    && at < |cursor| && cursor[at] == (session, from)
    && forall i | 0 <= i < |cursor| && i != at :: cursor[i].0 != session
  }

  predicate NotNamed(cursor: Cursor, session: Text) { forall i | 0 <= i < |cursor| :: cursor[i].0 != session }

  lemma {:induction false} NothingOffered(history: map<Text, seq<Event>>, retention: nat, cursor: Cursor, session: Text)
    requires HistoriesAre(history) && NotNamed(cursor, session)
    ensures OfferedTo(ReplayFor(history, retention, cursor).events, session) == []
    decreases |cursor|
  {
    if cursor != [] {
      NothingOffered(history, retention, cursor[..|cursor| - 1], session);
      OfferedByEntry(history, retention, cursor, session);
    }
  }

  /** The last cursor entry adds its own session's events, from its cursor on, and no other's. */
  lemma OfferedByEntry(history: map<Text, seq<Event>>, retention: nat, cursor: Cursor, session: Text)
    requires HistoriesAre(history) && cursor != []
    ensures OfferedTo(ReplayFor(history, retention, cursor).events, session)
         == OfferedTo(ReplayFor(history, retention, cursor[..|cursor| - 1]).events, session)
            + OwedTo(history, retention, cursor[|cursor| - 1], session)
  {
    var init, entry := cursor[..|cursor| - 1], cursor[|cursor| - 1];
    var owed := EventsAfter(Lookup(history, entry.0), retention, entry.1);
    if owed.Some? {
      OfferedSplits(ReplayFor(history, retention, init).events, owed.value, session);
      OfferedWithin(entry.0, owed.value, session, entry.1);
    }
  }

  function OwedTo(history: map<Text, seq<Event>>, retention: nat, entry: (Text, nat), session: Text): seq<int> {
    var log := Lookup(history, entry.0);
    if entry.0 == session && EventsAfter(log, retention, entry.1).Some? then Upwards(entry.1, |log| - entry.1) else []
  }

  lemma {:induction false} OfferedByReplay(history: map<Text, seq<Event>>, retention: nat, cursor: Cursor, at: nat, session: Text, from: nat)
    requires HistoriesAre(history) && NamesOnce(cursor, at, session, from)
    ensures OfferedTo(ReplayFor(history, retention, cursor).events, session) == OwedTo(history, retention, (session, from), session)
    decreases |cursor|
  {
    var init := cursor[..|cursor| - 1];
    var prior := OfferedTo(ReplayFor(history, retention, init).events, session);
    OfferedByEntry(history, retention, cursor, session);
    if at == |cursor| - 1 {
      NothingOffered(history, retention, init, session);
      assert prior + OwedTo(history, retention, (session, from), session) == OwedTo(history, retention, (session, from), session);
    } else {
      OfferedByReplay(history, retention, init, at, session, from);
      assert prior + [] == prior;
    }
  }

  // ---------- Coverage above the cursor ----------

  /** Before the replay the runner has not stepped over an event above the cursor. */
  ghost predicate NothingSkipped(k: Socket, session: Text, from: nat) {
    forall q | from < q <= HighWater(k, session) :: Carries(k.sent, session, q)
  }

  /** Above the cursor, exactly the events that were sent before the replay, those the
      replay added, and those emitted since have gone out; the mark is the journal's end. */
  ghost predicate SentSince(history: map<Text, seq<Event>>, k: Socket, session: Text, from: nat, before: Socket) {
    var n := |Lookup(history, session)|;
    && Orderly(history, k)
    && k.accepted
    && from <= n
    && HighWater(before, session) <= n
    && HighWater(k, session) <= n
    && (n > from ==> HighWater(k, session) == n)
    && (forall q | q > from :: Carries(k.sent, session, q)
          <==> Carries(before.sent, session, q) || HighWater(before, session) < q <= n)
  }

  lemma ReplaySends(history: map<Text, seq<Event>>, retention: nat, k: Socket, cursor: Cursor, at: nat, session: Text, from: nat)
    requires Orderly(history, k) && k.accepted && NamesOnce(cursor, at, session, from)
    requires EventsAfter(Lookup(history, session), retention, from).Some?
    ensures SentSince(history, ReplayOn(k, history, retention, Some(cursor)), session, from, k)
  {
    hide ReplayFor, Newest, OfferedTo, HistoriesAre;
    var events := ReplayFor(history, retention, cursor).events;
    OwedEventsAreHistory(history, retention, cursor);
    SendAllKeepsOrder(history, k, events);
    SendAllExtends(k, events);
    OfferedByReplay(history, retention, cursor, at, session, from);
    SendAllFor(k, events, session, from);
  }

  lemma SendSince(history: map<Text, seq<Event>>, k: Socket, e: Event, session: Text, from: nat, before: Socket)
    requires SentSince(history, k, session, from, before) && InHistory(history, e)
    ensures SentSince(history, SendIfConnected(k, e), session, from, before)
  {
    SendKeepsOrder(history, k, e);
    SendEffect(k, e, session);
  }

  lemma EmitSince(history: map<Text, seq<Event>>, k: Socket, e: Event, session: Text, from: nat, before: Socket)
    requires SentSince(history, k, session, from, before) && e.sequence == |Lookup(history, e.session)| + 1
    ensures SentSince(history[e.session := Lookup(history, e.session) + [e]], SendIfConnected(k, e), session, from, before)
  {
    hide MarksAreSent, IsAscending, Carries;
    var grown := history[e.session := Lookup(history, e.session) + [e]];
    SendKeepsOrder(grown, k, e);
    SendEffect(k, e, session);
  }

  lemma LiveStepSends(c: Collation, s: System, a: Action, session: Text, from: nat, before: Socket)
    requires SentSince(s.history, s.link, session, from, before) && AfterReplay(a)
    ensures SentSince(Step(c, s, a).history, Step(c, s, a).link, session, from, before)
  {
    match a
    case Emit(e) =>
      if e.sequence == |Lookup(s.history, e.session)| + 1 { EmitSince(s.history, s.link, e, session, from, before); }
    case Resend(owner, index) =>
      if index < |Lookup(s.history, owner)| { SendSince(s.history, s.link, s.history[owner][index], session, from, before); }
  }

  lemma {:induction false} LiveRunSends(c: Collation, s: System, actions: seq<Action>, session: Text, from: nat, before: Socket)
    requires SentSince(s.history, s.link, session, from, before) && forall a | a in actions :: AfterReplay(a)
    ensures SentSince(Run(c, s, actions).history, Run(c, s, actions).link, session, from, before)
    decreases |actions|
  {
    if actions != [] {
      var init := actions[..|actions| - 1];
      LiveRunSends(c, s, init, session, from, before);
      LiveStepSends(c, Run(c, s, init), actions[|actions| - 1], session, from, before);
    }
  }

  // ---------- In-order delivery ----------

  function DeliverAll(c: Collation, logs: Logs, events: seq<Event>): Logs
    decreases |events|
  {
    if events == [] then logs else Reduce(c, DeliverAll(c, logs, events[..|events| - 1]), events[|events| - 1])
  }

  ghost predicate AreReal(history: seq<Event>, sent: seq<Event>, session: Text) {
    forall i | 0 <= i < |sent| && sent[i].session == session ::
      1 <= sent[i].sequence <= |history| && history[sent[i].sequence - 1] == sent[i]
  }

  /** Delivering the sent events in order takes a log of length `from` to the largest
      length below which nothing above `from` is missing. */
  lemma {:induction false} DeliveryReaches(c: Collation, logs: Logs, history: seq<Event>, sent: seq<Event>, session: Text, from: nat)
    requires AreReal(history, sent, session) && IsAscending(sent)
    requires from <= |history| && LogOf(logs, session) == history[..from]
    ensures IsReached(history, LogOf(DeliverAll(c, logs, sent), session), sent, session, from)
    decreases |sent|
  {
    if sent != [] {
      var init, last := sent[..|sent| - 1], sent[|sent| - 1];
      assert sent == init + [last];
      DeliveryReaches(c, logs, history, init, session, from);
      ReachedNext(c, DeliverAll(c, logs, init), history, init, last, session, from);
    }
  }

  ghost predicate IsReached(history: seq<Event>, log: seq<Event>, sent: seq<Event>, session: Text, from: nat) {
    && from <= |log| <= |history| && log == history[..|log|]
    && (forall q | from < q <= |log| :: Carries(sent, session, q))
    && !Carries(sent, session, |log| + 1)
  }

  lemma ReachedNext(c: Collation, logs: Logs, history: seq<Event>, init: seq<Event>, last: Event, session: Text, from: nat)
    requires AreReal(history, init + [last], session) && IsAscending(init + [last])
    requires IsReached(history, LogOf(logs, session), init, session, from)
    ensures IsReached(history, LogOf(Reduce(c, logs, last), session), init + [last], session, from)
  {
    var earlier := LogOf(logs, session);
    assert (init + [last])[|init|] == last;
    forall q ensures Carries(init + [last], session, q) <==> Carries(init, session, q) || (last.session == session && last.sequence == q) {
      CarriesAppended(init, last, session, q);
    }
    if last.session == session && last.sequence == |earlier| + 1 {
      assert earlier + [last] == history[..|earlier| + 1];
      NoneAbove(init, last, |earlier| + 2);
    }
  }

  lemma NoneAbove(sent: seq<Event>, last: Event, q: int)
    requires IsAscending(sent + [last]) && q > last.sequence
    ensures !Carries(sent, last.session, q)
  {
    var all := sent + [last];
    forall i | 0 <= i < |sent| && sent[i].session == last.session ensures sent[i].sequence != q {
      assert all[i] == sent[i] && all[|sent|] == last;
    }
  }

  /** The whole life of one socket for one session: the live prelude, the replay from the
      control plane's cursor, and whatever follows. */
  function AfterSocketLife(c: Collation, s: System, prelude: seq<Action>, cursor: Cursor, sequel: seq<Action>): System {
    Run(c, Step(c, Run(c, s, prelude), ReplayAfter(Some(cursor))), sequel)
  }

  /** In-order delivery of everything the socket carried brings the control plane's log to
      the end of the journal if and only if no event above the cursor was stepped over
      before the replay; in particular whenever nothing was sent before the replay. */
  lemma ReplayClosesTheGap(c: Collation, s: System, prelude: seq<Action>, cursor: Cursor, sequel: seq<Action>,
                           at: nat, session: Text, from: nat, logs: Logs)
    requires s.link == OPENED && HistoriesAre(s.history)
    requires (forall a | a in prelude :: BeforeReplay(a)) && (forall a | a in sequel :: AfterReplay(a))
    requires Run(c, s, prelude).link.accepted && NamesOnce(cursor, at, session, from)
    requires EventsAfter(Lookup(Run(c, s, prelude).history, session), s.retention, from).Some?
    requires LogOf(logs, session) == Lookup(Run(c, s, prelude).history, session)[..from]
    ensures var before, after := Run(c, s, prelude), AfterSocketLife(c, s, prelude, cursor, sequel);
            && (LogOf(DeliverAll(c, logs, after.link.sent), session) == Lookup(after.history, session)
                <==> NothingSkipped(before.link, session, from))
            && (NothingSkipped(before.link, session, from) ==> NeverGaps(c, logs, after.link.sent, session))
            && ((forall q :: !Carries(before.link.sent, session, q)) ==> NothingSkipped(before.link, session, from))
  {
    hide ReducePartial, ReplayFor, PrintMembers, Print;
    var before := Run(c, s, prelude);
    LiveRunKeepsOrder(c, s, prelude);
    RetentionIsFixed(c, s, prelude);
    ReplaySends(before.history, before.retention, before.link, cursor, at, session, from);
    LiveRunSends(c, Step(c, before, ReplayAfter(Some(cursor))), sequel, session, from, before.link);
    var after := AfterSocketLife(c, s, prelude, cursor, sequel);
    PrefixOfHistory(c, s, prelude, cursor, sequel, session, from);
    CoverageDecides(c, after, logs, session, from, before.link);
    if NothingSkipped(before.link, session, from) {
      forall i | 0 <= i < |after.link.sent| && after.link.sent[i].session == session
        ensures !Outcome(c, DeliverAll(c, logs, after.link.sent[..i]), after.link.sent[i]).Gap?
      {
        CoveredIsNoGap(c, after, logs, session, from, i);
      }
    }
  }

  /** No event of the session, delivered in its turn, is answered with a gap. */
  ghost predicate NeverGaps(c: Collation, logs: Logs, sent: seq<Event>, session: Text) {
    forall i | 0 <= i < |sent| && sent[i].session == session ::
      !Outcome(c, DeliverAll(c, logs, sent[..i]), sent[i]).Gap?
  }

  lemma CoveredIsNoGap(c: Collation, after: System, logs: Logs, session: Text, from: nat, i: nat)
    requires Orderly(after.history, after.link) && from <= |Lookup(after.history, session)|
    requires forall q | from < q <= |Lookup(after.history, session)| :: Carries(after.link.sent, session, q)
    requires LogOf(logs, session) == Lookup(after.history, session)[..from]
    requires i < |after.link.sent| && after.link.sent[i].session == session
    ensures !Outcome(c, DeliverAll(c, logs, after.link.sent[..i]), after.link.sent[i]).Gap?
  {
    var history, sent := Lookup(after.history, session), after.link.sent;
    DeliveryReaches(c, logs, history, sent[..i], session, from);
    var next := |LogOf(DeliverAll(c, logs, sent[..i]), session)| + 1;
    if next < sent[i].sequence {
      CarriedEarlier(sent, i, next);
    }
  }

  lemma CarriedEarlier(sent: seq<Event>, i: nat, q: int)
    requires IsAscending(sent) && i < |sent| && q < sent[i].sequence && Carries(sent, sent[i].session, q)
    ensures Carries(sent[..i], sent[i].session, q)
  {
    var j :| 0 <= j < |sent| && sent[j].session == sent[i].session && sent[j].sequence == q;
    assert j < i && sent[..i][j] == sent[j];
  }

  lemma CoverageDecides(c: Collation, after: System, logs: Logs, session: Text, from: nat, before: Socket)
    requires SentSince(after.history, after.link, session, from, before)
    requires LogOf(logs, session) == Lookup(after.history, session)[..from]
    ensures LogOf(DeliverAll(c, logs, after.link.sent), session) == Lookup(after.history, session)
       <==> NothingSkipped(before, session, from)
  {
    var history, sent := Lookup(after.history, session), after.link.sent;
    DeliveryReaches(c, logs, history, sent, session, from);
    var log := LogOf(DeliverAll(c, logs, sent), session);
    if |log| < |history| {
      assert !Carries(sent, session, |log| + 1);
    } else {
      assert history[..|log|] == history;
    }
  }

  /** The state of a runner whose session has one event from before the connection and one
      sent live between the acceptance and the replay. */
  function Skipping(session: Text, first: Event, second: Event): System {
    System(map[session := [first, second]], 2, Socket(true, true, map[session := 2], [second]), {EventMessage(second)}, map[])
  }

  lemma SkippingIsReached(c: Collation, session: Text, first: Event, second: Event)
    requires first.session == session == second.session && first.sequence == 1 && second.sequence == 2
    ensures var offline := Step(c, START.(retention := 2), Emit(first));
            Step(c, Step(c, Step(c, offline, Open), Accept), Emit(second)) == Skipping(session, first, second)
  {
    var offline := Step(c, START.(retention := 2), Emit(first));
    assert [] + [first] == [first] && [first] + [second] == [first, second];
    assert offline.history == map[session := [first]];
    var accepted := Step(c, Step(c, offline, Open), Accept);
    assert accepted == System(map[session := [first]], 2, Socket(true, true, map[], []), {}, map[]);
    var live := Step(c, accepted, Emit(second));
    assert [] + [second] == [second];
    assert live.history == map[session := [first, second]];
    assert live.link == Socket(true, true, map[session := 2], [second]);
  }

  /** There the condition fails, the replay cannot go back behind the live event, and
      the control plane's log stays empty. */
  lemma SkippedEventIsLost(c: Collation, session: Text, first: Event, second: Event)
    requires first.session == session == second.session && first.sequence == 1 && second.sequence == 2
    ensures var live := Skipping(session, first, second);
            var replayed := Step(c, live, ReplayAfter(Some([(session, 0)])));
            && !NothingSkipped(live.link, session, 0)
            && replayed.link.sent == [second]
            && LogOf(DeliverAll(c, map[], replayed.link.sent), session) == []
  {
    SkippingSkips(session, first, second);
    SkippingReplay(c, session, first, second);
  }

  lemma SkippingSkips(session: Text, first: Event, second: Event)
    requires first.session == session == second.session && first.sequence == 1 && second.sequence == 2
    ensures !NothingSkipped(Skipping(session, first, second).link, session, 0)
  {
    var link := Skipping(session, first, second).link;
    assert HighWater(link, session) == 2 && !Carries(link.sent, session, 1);
  }

  lemma SkippingReplay(c: Collation, session: Text, first: Event, second: Event)
    requires first.session == session == second.session && first.sequence == 1 && second.sequence == 2
    ensures Step(c, Skipping(session, first, second), ReplayAfter(Some([(session, 0)]))).link.sent == [second]
  {
    hide ReplayFor, SendAll;
    var live := Skipping(session, first, second);
    OneEntryReplay(live.history, session, first, second);
    SkippedSends(live.link, first, second);
    assert ReplayOn(live.link, live.history, 2, Some([(session, 0)])) == live.link;
  }

  lemma OneEntryReplay(history: map<Text, seq<Event>>, session: Text, first: Event, second: Event)
    requires history == map[session := [first, second]]
    ensures ReplayFor(history, 2, [(session, 0)]) == Replay([first, second], [])
  {
    assert [(session, 0)][..0] == [];
    assert ReplayFor(history, 2, []) == Replay([], []);
    assert Newest([first, second], 2) == [first, second];
    assert EventsAfter([first, second], 2, 0) == Some([first, second]);
    assert [] + [first, second] == [first, second];
  }

  lemma SkippedSends(k: Socket, first: Event, second: Event)
    requires HighWater(k, first.session) == 2 && first.session == second.session && first.sequence == 1 && second.sequence == 2
    ensures SendAll(k, [first, second]) == k
  {
    assert [first, second][..1] == [first] && [first][..0] == [];
    assert SendAll(k, [first]) == SendIfConnected(SendAll(k, []), first);
  }

  lemma {:induction false} RetentionIsFixed(c: Collation, s: System, actions: seq<Action>)
    ensures Run(c, s, actions).retention == s.retention
    decreases |actions|
  {
    if actions != [] { RetentionIsFixed(c, s, actions[..|actions| - 1]); }
  }

  lemma {:induction false} HistoryGrows(c: Collation, s: System, actions: seq<Action>, session: Text)
    ensures Lookup(s.history, session) <= Lookup(Run(c, s, actions).history, session)
    decreases |actions|
  {
    if actions != [] { HistoryGrows(c, s, actions[..|actions| - 1], session); }
  }

  lemma PrefixOfHistory(c: Collation, s: System, prelude: seq<Action>, cursor: Cursor, sequel: seq<Action>, session: Text, from: nat)
    requires from <= |Lookup(Run(c, s, prelude).history, session)|
    ensures var after := AfterSocketLife(c, s, prelude, cursor, sequel);
            && from <= |Lookup(after.history, session)|
            && Lookup(after.history, session)[..from] == Lookup(Run(c, s, prelude).history, session)[..from]
  {
    HistoryGrows(c, Step(c, Run(c, s, prelude), ReplayAfter(Some(cursor))), sequel, session);
  }
}
