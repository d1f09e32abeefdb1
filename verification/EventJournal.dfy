/** The runner's durable event journal: a bounded window of the newest events of each
    session.  `history` is everything ever appended; the store keeps a suffix of it. */
module EventJournal {
  import opened CanonicalJson
  import opened SessionReducer
  import opened Options

  /** The session's events carry the sequences 1, 2, 3, ... */
  predicate IsHistory(session: Text, history: seq<Event>) {
    forall i | 0 <= i < |history| :: history[i].session == session && history[i].sequence == i + 1
  }

  function Newest(history: seq<Event>, retention: nat): (window: seq<Event>)
    ensures |window| <= |history| && window == history[|history| - |window|..]
    ensures |window| <= retention && (|window| == retention || window == history)
  {
    if |history| <= retention then history else history[|history| - retention..]
  }

  /** The events a cursor is owed, or nothing when the window cannot continue it. */
  function EventsAfter(history: seq<Event>, retention: nat, last: int): Option<seq<Event>> {
    if history == [] || last < |history| - |Newest(history, retention)| || last > |history| then None
    else Some(history[last..])
  }

  /** A cursor is owed all later events, as long as the journal reaches it and the newest events
      that are kept begin right after it or before. */
  lemma CursorsAreServed(history: seq<Event>, retention: nat, last: nat)
    ensures EventsAfter(history, retention, last)
         == if history != [] && |history| - retention <= last <= |history| then Some(history[last..]) else None
  {}

  /** The longest suffix of the window that the encoder accepts, offered as complete
      only when nothing of the history is missing. */
  function SuffixSnapshot(session: Text, history: seq<Event>, from: nat): (s: Snapshot)
    requires from < |history|
  {
    Snapshot(session, from == 0, from + 1, |history|, history[from..], [])
  }

  lemma SuffixSnapshotIsValid(session: Text, history: seq<Event>, from: nat)
    requires IsHistory(session, history) && from < |history|
    ensures SchemaValid(SuffixSnapshot(session, history, from))
  {}

  function After(window: seq<Event>, last: int): seq<Event> {
    if window == [] then []
    else (if window[0].sequence > last then [window[0]] else []) + After(window[1..], last)
  }

  lemma {:induction false} AfterIsSuffix(session: Text, history: seq<Event>, from: nat, last: int)
    requires IsHistory(session, history) && from <= |history| && from <= last <= |history|
    ensures After(history[from..], last) == history[last..]
    decreases |history| - from
  {
    if from < |history| {
      assert history[from..][0] == history[from] && history[from..][1..] == history[from + 1..];
      if from < last {
        AfterIsSuffix(session, history, from + 1, last);
      } else {
        AllAfter(session, history, from + 1, last);
        assert history[last..] == [history[last]] + history[last + 1..];
      }
    }
  }

  lemma {:induction false} AllAfter(session: Text, history: seq<Event>, from: nat, last: int)
    requires IsHistory(session, history) && last <= from <= |history|
    ensures After(history[from..], last) == history[from..]
    decreases |history| - from
  {
    if from < |history| {
      assert history[from..][0] == history[from] && history[from..][1..] == history[from + 1..];
      AllAfter(session, history, from + 1, last);
      assert history[from..] == [history[from]] + history[from + 1..];
    }
  }

  /** The append's retention loop: drop from the front while over the bound. */
  method Trimmed(window: seq<Event>, retention: nat, ghost history: seq<Event>) returns (kept: seq<Event>)
    requires |window| <= |history| && window == history[|history| - |window|..]
    requires |window| >= retention || window == history
    ensures kept == Newest(history, retention)
  {
    kept := window;
    while |kept| > retention
      invariant |kept| <= |history| && kept == history[|history| - |kept|..]
      invariant |kept| >= retention || kept == history
    {
      kept := kept[1..];
    }
  }

  ghost predicate NoneFits(session: Text, history: seq<Event>, oldest: nat, upTo: int, fits: Snapshot -> bool) {
    forall from | oldest <= from < upTo && from < |history| :: !fits(SuffixSnapshot(session, history, from))
  }

  ghost predicate IsLongestFitting(session: Text, history: seq<Event>, retained: nat, fits: Snapshot -> bool, offer: Option<Snapshot>)
    requires retained <= |history|
  {
    var oldest := |history| - retained;
    match offer
    case None => NoneFits(session, history, oldest, |history|, fits)
    case Some(s) =>
      && |history| - retained <= s.fromSequence - 1 < |history|
      && s == SuffixSnapshot(session, history, s.fromSequence - 1)
      && fits(s)
      && NoneFits(session, history, oldest, s.fromSequence - 1, fits)
  }

  lemma CandidateIsSuffix(session: Text, window: seq<Event>, history: seq<Event>, from: nat)
    requires window != [] && |window| <= |history| && |history| - |window| <= from < |history| && window == history[|history| - |window|..]
    requires IsHistory(session, history)
    ensures var selected := history[from..];
            && selected != [] && SchemaValid(SuffixSnapshot(session, history, from))
            && SuffixSnapshot(session, history, from)
               == Snapshot(session, window[0].sequence == 1 && |selected| == |window|, selected[0].sequence, selected[|selected| - 1].sequence, selected, [])
            && SuffixSnapshot(session, history, from).fromSequence == from + 1
  {
    assert window[0] == history[|history| - |window|];
    SuffixSnapshotIsValid(session, history, from);
  }

  /** The snapshot loop: drop the oldest events until the snapshot can be encoded. */
  method LongestFitting(session: Text, window: seq<Event>, fits: Snapshot -> bool, ghost history: seq<Event>)
    returns (offer: Option<Snapshot>)
    requires window != [] && |window| <= |history| && window == history[|history| - |window|..] && IsHistory(session, history)
    ensures IsLongestFitting(session, history, |window|, fits, offer)
    ensures offer.Some? ==> SchemaValid(offer.value)
  {
    hide SchemaValid, SuffixSnapshot, IsHistory;
    var startsAtOne := window[0].sequence == 1;
    var selected := window;
    ghost var from := |history| - |window|;
    while selected != []
      invariant |history| - |window| <= from <= |history| && selected == history[from..]
      invariant NoneFits(session, history, |history| - |window|, from, fits)
      decreases |selected|
    {
      var complete := startsAtOne && |selected| == |window|;
      var candidate := Snapshot(session, complete, selected[0].sequence, selected[|selected| - 1].sequence, selected, []);
      CandidateIsSuffix(session, window, history, from);
      if fits(candidate) { return Some(candidate); }
      assert selected[1..] == history[from + 1..];
      selected, from := selected[1..], from + 1;
    }
    offer := None;
  }

  ghost predicate IsWindowOf(events: map<Text, seq<Event>>, history: map<Text, seq<Event>>, retention: nat) {
    && events.Keys == history.Keys
    && forall s | s in history ::
         history[s] != [] && IsHistory(s, history[s]) && events[s] == Newest(history[s], retention)
  }

  function Lookup(m: map<Text, seq<Event>>, session: Text): seq<Event> {
    if session in m then m[session] else []
  }

  lemma HistoryAppends(session: Text, history: seq<Event>, e: Event)
    requires IsHistory(session, history) && e.session == session && e.sequence == |history| + 1
    ensures IsHistory(session, history + [e])
  {}

  lemma WindowAppends(events: map<Text, seq<Event>>, history: map<Text, seq<Event>>, retention: nat, e: Event)
    requires IsWindowOf(events, history, retention) && e.sequence == |Lookup(history, e.session)| + 1
    ensures var grown := Lookup(history, e.session) + [e];
            IsWindowOf(events[e.session := Newest(grown, retention)], history[e.session := grown], retention)
  {
    hide Newest, IsHistory, Lookup;
    LookupIsHistory(events, history, retention, e.session);
    HistoryAppends(e.session, Lookup(history, e.session), e);
    assert Lookup(history, e.session) + [e] != [];
  }

  lemma LookupIsHistory(events: map<Text, seq<Event>>, history: map<Text, seq<Event>>, retention: nat, session: Text)
    requires IsWindowOf(events, history, retention)
    ensures IsHistory(session, Lookup(history, session))
  {
    hide Newest, IsHistory;
    EmptyIsHistory(session);
  }

  lemma EmptyIsHistory(session: Text)
    ensures IsHistory(session, [])
  {}

  lemma NewestEndsIn(history: seq<Event>, retention: nat, e: Event)
    ensures var window := Newest(history, retention);
            && window + [e] == (history + [e])[|history| - |window|..]
            && (|window| >= retention || window == history)
            && (history == [] ==> window == [])
  {}

  /** What the window of a session tells of its journal. */
  lemma SessionsAgree(events: map<Text, seq<Event>>, history: map<Text, seq<Event>>, retention: nat, session: Text, last: int)
    requires IsWindowOf(events, history, retention) && retention >= 1 && last >= 0
    ensures session in events <==> session in history
    ensures session !in events ==> EventsAfter(Lookup(history, session), retention, last).None?
    ensures session in events ==>
              var h, window := Lookup(history, session), events[session];
              && 0 < |window| <= |h| && window[0].sequence == |h| - |window| + 1 && window[|window| - 1].sequence == |h|
              && EventsAfter(h, retention, last) == if |h| - |window| <= last <= |h| then Some(After(window, last)) else None
  {
    if session in events {
      var h := history[session];
      var from := |h| - |Newest(h, retention)|;
      assert h[from..] == events[session];
      if from <= last <= |h| { AfterIsSuffix(session, h, from, last); }
    }
  }

  class RunnerStateStore {
    var events: map<Text, seq<Event>>
    const retention: nat
    const fits: Snapshot -> bool
    ghost var history: map<Text, seq<Event>>

    ghost function HistoryOf(session: Text): seq<Event>
      reads this
    {
      Lookup(history, session)
    }

    ghost predicate Valid()
      reads this
    {
      retention >= 1 && IsWindowOf(events, history, retention)
    }

    constructor (retention: nat, fits: Snapshot -> bool)
      requires retention >= 1
      ensures Valid() && events == map[] && history == map[]
      ensures this.retention == retention && this.fits == fits
    {
      this.retention := retention;
      this.fits := fits;
      events := map[];
      history := map[];
    }

    method NextEventSequence(session: Text) returns (next: int)
      requires Valid()
      ensures next == |HistoryOf(session)| + 1
    {
      if session in events {
        var window := events[session];
        next := window[|window| - 1].sequence + 1;
      } else {
        next := 1;
      }
    }

    /** Appends exactly the next event of its session; any other sequence is refused. */
    method AppendEvent(event: Event) returns (appended: bool)
      requires Valid()
      modifies this
      ensures Valid()
      ensures appended == (event.sequence == |old(HistoryOf(event.session))| + 1)
      ensures history == if appended then old(history)[event.session := old(HistoryOf(event.session)) + [event]] else old(history)
      ensures forall s | s in events :: |events[s]| <= retention && (|events[s]| == retention || events[s] == history[s])
    {
      hide IsHistory, Newest;
      var expected := NextEventSequence(event.session);
      if event.sequence != expected { return false; }
      var window := Lookup(events, event.session);
      ghost var h := HistoryOf(event.session);
      NewestEndsIn(h, retention, event);
      WindowAppends(events, history, retention, event);
      window := Trimmed(window + [event], retention, h + [event]);
      events, history := events[event.session := window], history[event.session := h + [event]];
      appended := true;
    }

    method ReplayEventsAfter(session: Text, last: int) returns (replay: Option<seq<Event>>)
      requires Valid() && last >= 0
      ensures replay == EventsAfter(HistoryOf(session), retention, last)
    {
      hide Newest, IsHistory, IsWindowOf, EventsAfter, After;
      SessionsAgree(events, history, retention, session, last);
      if session !in events { return None; }
      var window := events[session];
      var first, final := window[0].sequence, window[|window| - 1].sequence;
      if last < first - 1 || last > final { return None; }
      replay := Some(After(window, last));
    }

    method SessionSnapshot(session: Text) returns (snapshot: Option<Snapshot>)
      requires Valid()
      ensures var h := HistoryOf(session);
              IsLongestFitting(session, h, |Newest(h, retention)|, fits, snapshot)
      ensures snapshot.Some? ==> SchemaValid(snapshot.value)
    {
      if session !in events { return None; }
      snapshot := LongestFitting(session, events[session], fits, HistoryOf(session));
    }
  }
}
