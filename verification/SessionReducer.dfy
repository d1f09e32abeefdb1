/** The control plane's reference reducer: per session it keeps the events it has
    applied, in a map from sequence number to event. */
module SessionReducer {
  import opened CanonicalJson

  datatype Event = Event(session: Text, sequence: int, payload: Json)

  datatype ApplyResult =
    | Applied(event: Event)
    | Duplicate(event: Event)
    | Gap(session: Text, expected: int, received: int)
    | Conflict(session: Text, sequence: int, existing: Event, offered: Event)

  datatype Snapshot = Snapshot(
    session: Text, complete: bool, fromSequence: int, throughSequence: int,
    events: seq<Event>, tombstones: seq<Json>)

  datatype SnapshotResult =
    | SnapshotApplied(complete: bool, applied: nat, duplicates: nat, tombstones: seq<Json>)
    | SnapshotRefused(reason: ApplyResult)

  /** The refinements of the snapshot schema. */
  predicate SchemaValid(snapshot: Snapshot) {
    && snapshot.events != []
    && 1 <= snapshot.fromSequence <= snapshot.throughSequence
    && (snapshot.complete ==> snapshot.fromSequence == 1)
    && (forall i | 0 <= i < |snapshot.events| ::
          && snapshot.events[i].session == snapshot.session
          && snapshot.events[i].sequence == snapshot.fromSequence + i)
    && snapshot.events[|snapshot.events| - 1].sequence == snapshot.throughSequence
  }

  predicate SameEvent(c: Collation, e: Event, f: Event) { Print(c, e.payload) == Print(c, f.payload) }

  // ---------- The reducer as a function of the applied prefixes ----------

  /** The applied events of every session, in order, starting at sequence 1. */
  type Logs = map<Text, seq<Event>>

  function LogOf(logs: Logs, session: Text): seq<Event> {
    if session in logs then logs[session] else []
  }

  function Outcome(c: Collation, logs: Logs, e: Event): ApplyResult {
    var log := LogOf(logs, e.session);
    if 1 <= e.sequence <= |log| then
      var existing := log[e.sequence - 1];
      if SameEvent(c, existing, e) then Duplicate(existing)
      else Conflict(e.session, e.sequence, existing, e)
    else if e.sequence == |log| + 1 then Applied(e)
    else Gap(e.session, |log| + 1, e.sequence)
  }

  function Reduce(c: Collation, logs: Logs, e: Event): Logs {
    if Outcome(c, logs, e).Applied? then logs[e.session := LogOf(logs, e.session) + [e]] else logs
  }

  predicate IsRefusal(r: ApplyResult) { r.Gap? || r.Conflict? }

  /** Reduces events until the first refusal. */
  function ReducePartial(c: Collation, logs: Logs, events: seq<Event>, applied: nat, duplicates: nat, tombstones: seq<Json>):
    (r: (Logs, SnapshotResult))
    decreases events
  {
    if events == [] then (logs, SnapshotApplied(false, applied, duplicates, tombstones))
    else
      var outcome := Outcome(c, logs, events[0]);
      if IsRefusal(outcome) then (logs, SnapshotRefused(outcome))
      else if outcome.Applied? then
        ReducePartial(c, Reduce(c, logs, events[0]), events[1..], applied + 1, duplicates, tombstones)
      else ReducePartial(c, logs, events[1..], applied, duplicates + 1, tombstones)
  }

  function ReduceSnapshot(c: Collation, logs: Logs, snapshot: Snapshot): (Logs, SnapshotResult) {
    if snapshot.complete then
      (logs[snapshot.session := snapshot.events],
       SnapshotApplied(true, |snapshot.events|, 0, snapshot.tombstones))
    else ReducePartial(c, logs, snapshot.events, 0, 0, snapshot.tombstones)
  }

  // ---------- Partial snapshots are atomic ----------

  /** Where the snapshot overlaps the log, its events are the ones already applied. */
  predicate Agrees(c: Collation, log: seq<Event>, snapshot: Snapshot) {
    forall i | 0 <= i < |snapshot.events| && 1 <= snapshot.fromSequence + i <= |log| ::
      SameEvent(c, log[snapshot.fromSequence + i - 1], snapshot.events[i])
  }

  function OverlapLength(log: seq<Event>, snapshot: Snapshot): (n: nat)
    requires SchemaValid(snapshot) && snapshot.fromSequence <= |log| + 1
    ensures n <= |snapshot.events|
  {
    var shared := |log| + 1 - snapshot.fromSequence;
    if shared <= |snapshot.events| then shared else |snapshot.events|
  }

  /** The state after a partial snapshot: untouched on a gap or a conflict, and otherwise
      grown by exactly the missing suffix, every duplicate preceding every applied event. */
  lemma PartialSnapshotIsAtomic(c: Collation, logs: Logs, snapshot: Snapshot)
    requires SchemaValid(snapshot) && !snapshot.complete
    ensures
      var log := LogOf(logs, snapshot.session);
      var (after, result) := ReduceSnapshot(c, logs, snapshot);
      if snapshot.fromSequence > |log| + 1 then
        after == logs && result == SnapshotRefused(Gap(snapshot.session, |log| + 1, snapshot.fromSequence))
      else if !Agrees(c, log, snapshot) then
        after == logs && result.SnapshotRefused? && result.reason.Conflict?
      else
        var n := OverlapLength(log, snapshot);
        && LogOf(after, snapshot.session) == log + snapshot.events[n..]
        && (forall s | s != snapshot.session :: LogOf(after, s) == LogOf(logs, s))
        && result == SnapshotApplied(false, |snapshot.events| - n, n, snapshot.tombstones)
  {
    var log := LogOf(logs, snapshot.session);
    if snapshot.fromSequence <= |log| + 1 {
      var n := OverlapLength(log, snapshot);
      if Agrees(c, log, snapshot) {
        DuplicatesFirst(c, logs, snapshot, 0, n);
        SuffixApplied(c, logs, snapshot, n, n);
      } else {
        var k :| 0 <= k < |snapshot.events| && 1 <= snapshot.fromSequence + k <= |log|
                 && !SameEvent(c, log[snapshot.fromSequence + k - 1], snapshot.events[k]);
        ConflictBeforeApplying(c, logs, snapshot, 0, k);
      }
    }
  }

  lemma {:induction false} DuplicatesFirst(c: Collation, logs: Logs, snapshot: Snapshot, i: nat, n: nat)
    requires SchemaValid(snapshot) && Agrees(c, LogOf(logs, snapshot.session), snapshot)
    requires snapshot.fromSequence <= |LogOf(logs, snapshot.session)| + 1
    requires i <= n == OverlapLength(LogOf(logs, snapshot.session), snapshot)
    ensures ReducePartial(c, logs, snapshot.events[i..], 0, i, snapshot.tombstones)
         == ReducePartial(c, logs, snapshot.events[n..], 0, n, snapshot.tombstones)
    decreases n - i
  {
    hide PrintMembers, Print, ShortEscape, SameEvent;
    if i < n {
      assert snapshot.events[i..][0] == snapshot.events[i] && snapshot.events[i..][1..] == snapshot.events[i + 1..];
      DuplicatesFirst(c, logs, snapshot, i + 1, n);
    }
  }

  function AppendTo(logs: Logs, session: Text, events: seq<Event>): Logs {
    if events == [] then logs else logs[session := LogOf(logs, session) + events]
  }

  lemma AppendOneMore(logs: Logs, session: Text, e: Event, rest: seq<Event>)
    ensures AppendTo(AppendTo(logs, session, [e]), session, rest) == AppendTo(logs, session, [e] + rest)
  {
    assert LogOf(logs, session) + [e] + rest == LogOf(logs, session) + ([e] + rest);
    if rest == [] { assert [e] + rest == [e]; }
  }

  lemma {:induction false} SuffixApplied(c: Collation, logs: Logs, snapshot: Snapshot, n: nat, i: nat)
    requires SchemaValid(snapshot) && n <= i <= |snapshot.events|
    requires i < |snapshot.events| ==> |LogOf(logs, snapshot.session)| == snapshot.fromSequence + i - 1
    ensures ReducePartial(c, logs, snapshot.events[i..], i - n, n, snapshot.tombstones)
         == (AppendTo(logs, snapshot.session, snapshot.events[i..]), SnapshotApplied(false, |snapshot.events| - n, n, snapshot.tombstones))
    decreases |snapshot.events| - i
  {
    if i < |snapshot.events| {
      hide ReducePartial, SameEvent;
      var e, rest := snapshot.events[i], snapshot.events[i + 1..];
      assert Reduce(c, logs, e) == AppendTo(logs, snapshot.session, [e]);
      SuffixApplied(c, Reduce(c, logs, e), snapshot, n, i + 1);
      assert snapshot.events[i..] == [e] + rest;
      AppendOneMore(logs, snapshot.session, e, rest);
    }
  }

  lemma {:induction false} ConflictBeforeApplying(c: Collation, logs: Logs, snapshot: Snapshot, i: nat, k: nat)
    requires SchemaValid(snapshot) && i <= k < |snapshot.events|
    requires snapshot.fromSequence + k <= |LogOf(logs, snapshot.session)|
    requires !SameEvent(c, LogOf(logs, snapshot.session)[snapshot.fromSequence + k - 1], snapshot.events[k])
    ensures
      var (after, result) := ReducePartial(c, logs, snapshot.events[i..], 0, i, snapshot.tombstones);
      after == logs && result.SnapshotRefused? && result.reason.Conflict?
    decreases k - i
  {
    var log := LogOf(logs, snapshot.session);
    assert snapshot.events[i..][0] == snapshot.events[i] && snapshot.events[i..][1..] == snapshot.events[i + 1..];
    if SameEvent(c, log[snapshot.fromSequence + i - 1], snapshot.events[i]) {
      ConflictBeforeApplying(c, logs, snapshot, i + 1, k);
    }
  }

  // ---------- The reducer as the object the control plane holds ----------

  /** A sequence map holds exactly the sequences 1..m of one session. */
  ghost predicate IsDense(session: Text, events: map<int, Event>) {
    && (forall k :: k in events <==> 1 <= k <= |events|)
    && (forall k | k in events :: events[k].session == session && events[k].sequence == k)
  }

  ghost function Listed(session: Text, events: map<int, Event>): (log: seq<Event>)
    requires IsDense(session, events)
    ensures |log| == |events|
    ensures forall i | 0 <= i < |log| :: log[i] == events[i + 1]
  {
    seq(|events|, i requires 0 <= i < |events| => events[i + 1])
  }

  type SequenceMaps = map<Text, map<int, Event>>

  ghost predicate AllDense(maps: SequenceMaps) {
    forall s | s in maps :: |maps[s]| > 0 && IsDense(s, maps[s])
  }

  ghost function AllListed(maps: SequenceMaps): Logs
    requires AllDense(maps)
  {
    map s | s in maps :: Listed(s, maps[s])
  }

  lemma ListedAfter(maps: SequenceMaps, session: Text, events: map<int, Event>, log: seq<Event>)
    requires AllDense(maps) && |events| > 0 && IsDense(session, events)
    requires |log| == |events| && forall i | 0 <= i < |log| :: log[i] == events[i + 1]
    ensures AllDense(maps[session := events])
    ensures AllListed(maps[session := events]) == AllListed(maps)[session := log]
  {
    assert Listed(session, events) == log;
  }

  lemma DenseAppend(session: Text, events: map<int, Event>, e: Event)
    requires IsDense(session, events) && e.session == session && e.sequence == |events| + 1
    ensures IsDense(session, events[e.sequence := e])
    ensures Listed(session, events[e.sequence := e]) == Listed(session, events) + [e]
  {
    assert e.sequence !in events;
  }

  lemma AnElement<T>(s: set<T>) returns (x: T)
    requires |s| > 0
    ensures x in s
  {
    x :| x in s;
  }

  method MaxKey(events: map<int, Event>) returns (m: int)
    requires |events| > 0
    ensures m in events && forall k | k in events :: k <= m
  {
    var keys := events.Keys;
    ghost var first := AnElement(keys);
    m :| m in keys;
    keys := keys - {m};
    while keys != {}
      invariant keys <= events.Keys && m in events
      invariant forall k | k in events && k !in keys :: k <= m
      decreases keys
    {
      ghost var next := AnElement(keys);
      var k :| k in keys;
      if k > m { m := k; }
      keys := keys - {k};
    }
  }

  /** The last sequence of a session's dense table. */
  method LastSequence(ghost session: Text, events: map<int, Event>) returns (last: int)
    requires IsDense(session, events) && |events| > 0
    ensures last == |events|
  {
    last := MaxKey(events);
    assert |events| in events;
  }

  lemma ListedLengths(maps: SequenceMaps)
    requires AllDense(maps)
    ensures AllListed(maps).Keys == maps.Keys && forall s | s in maps :: |AllListed(maps)[s]| == |maps[s]| >= 1
  {}

  method Replacement(snapshot: Snapshot) returns (replacement: map<int, Event>)
    requires SchemaValid(snapshot) && snapshot.complete
    ensures IsDense(snapshot.session, replacement) && |replacement| == |snapshot.events|
    ensures forall i | 0 <= i < |snapshot.events| :: replacement[i + 1] == snapshot.events[i]
  {
    replacement := map[];
    for i := 0 to |snapshot.events|
      invariant |replacement| == i && IsDense(snapshot.session, replacement)
      invariant forall j | 0 <= j < i :: replacement[j + 1] == snapshot.events[j]
    {
      assert snapshot.events[i].sequence !in replacement;
      replacement := replacement[snapshot.events[i].sequence := snapshot.events[i]];
    }
  }

  class HcpSessionEventReducer {
    var eventsBySession: map<Text, map<int, Event>>
    const collation: Collation

    ghost predicate Valid()
      reads this
    {
      AllDense(eventsBySession)
    }

    ghost function Contents(): Logs
      reads this
      requires Valid()
    {
      AllListed(eventsBySession)
    }

    constructor (collation: Collation)
      ensures Valid() && Contents() == map[] && this.collation == collation
    {
      this.collation := collation;
      eventsBySession := map[];
    }

    method ApplyEvent(event: Event) returns (result: ApplyResult)
      requires Valid()
      modifies this
      ensures Valid()
      ensures result == Outcome(collation, old(Contents()), event)
      ensures Contents() == Reduce(collation, old(Contents()), event)
    {
      var sessionEvents := if event.session in eventsBySession then eventsBySession[event.session] else map[];
      assert IsDense(event.session, sessionEvents);
      ghost var log := LogOf(Contents(), event.session);
      assert log == Listed(event.session, sessionEvents);
      if event.sequence in sessionEvents {
        var existing := sessionEvents[event.sequence];
        return if SameEvent(collation, existing, event) then Duplicate(existing)
               else Conflict(event.session, event.sequence, existing, event);
      }
      var expected := 1;
      if |sessionEvents| > 0 {
        var last := LastSequence(event.session, sessionEvents);
        expected := last + 1;
      }
      if event.sequence != expected {
        return Gap(event.session, expected, event.sequence);
      }
      DenseAppend(event.session, sessionEvents, event);
      ListedAfter(eventsBySession, event.session, sessionEvents[event.sequence := event], log + [event]);
      eventsBySession := eventsBySession[event.session := sessionEvents[event.sequence := event]];
      result := Applied(event);
    }

    method ApplySnapshot(snapshot: Snapshot) returns (result: SnapshotResult)
      requires Valid() && (snapshot.complete ==> SchemaValid(snapshot))
      modifies this
      ensures Valid()
      ensures (Contents(), result) == ReduceSnapshot(collation, old(Contents()), snapshot)
      ensures snapshot.complete ==> snapshot.session in Contents() && Contents()[snapshot.session] == snapshot.events
    {
      ghost var before := Contents();
      var n := |snapshot.events|;
      if snapshot.complete {
        var replacement := Replacement(snapshot);
        ListedAfter(eventsBySession, snapshot.session, replacement, snapshot.events);
        eventsBySession := eventsBySession[snapshot.session := replacement];
        return SnapshotApplied(true, n, 0, snapshot.tombstones);
      }
      var applied, duplicates := 0, 0;
      for i := 0 to n
        invariant Valid()
        invariant ReducePartial(collation, before, snapshot.events, 0, 0, snapshot.tombstones)
               == ReducePartial(collation, Contents(), snapshot.events[i..], applied, duplicates, snapshot.tombstones)
      {
        assert snapshot.events[i..][0] == snapshot.events[i] && snapshot.events[i..][1..] == snapshot.events[i + 1..];
        var outcome := ApplyEvent(snapshot.events[i]);
        if outcome.Gap? || outcome.Conflict? { return SnapshotRefused(outcome); }
        if outcome.Applied? { applied := applied + 1; } else { duplicates := duplicates + 1; }
      }
      result := SnapshotApplied(false, applied, duplicates, snapshot.tombstones);
    }

    /** The cursor of the next acceptance: one entry per session, naming the length of its log. */
    method ResumeCursor() returns (cursor: map<Text, int>)
      requires Valid()
      ensures cursor.Keys == Contents().Keys
      ensures forall s | s in cursor :: cursor[s] == |Contents()[s]| >= 1
    {
      hide AllListed, IsDense;
      cursor := map[];
      ListedLengths(eventsBySession);
      var rest := eventsBySession.Keys;
      while rest != {}
        invariant rest <= eventsBySession.Keys && cursor.Keys == eventsBySession.Keys - rest
        invariant forall s | s in cursor :: cursor[s] == |eventsBySession[s]| >= 1
        decreases rest
      {
        var s :| s in rest;
        var last := LastSequence(s, eventsBySession[s]);
        cursor := cursor[s := last];
        rest := rest - {s};
      }
    }
  }
}
