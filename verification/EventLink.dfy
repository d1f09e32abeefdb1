/** The runner's side of event delivery on one socket: what has been sent, and the
    per-session high-water mark that suppresses anything at or below it. */
module EventLink {
  import opened CanonicalJson
  import opened SessionReducer
  import opened EventJournal
  import opened Options

  datatype Socket = Socket(open: bool, accepted: bool, lastSent: map<Text, int>, sent: seq<Event>)

  const CLOSED := Socket(false, false, map[], [])
  const OPENED := Socket(true, false, map[], [])

  function HighWater(k: Socket, session: Text): int {
    if session in k.lastSent then k.lastSent[session] else 0
  }

  function SendIfConnected(k: Socket, e: Event): Socket {
    if !k.open || e.sequence <= HighWater(k, e.session) then k
    else k.(sent := k.sent + [e], lastSent := k.lastSent[e.session := e.sequence])
  }

  function SendAll(k: Socket, events: seq<Event>): (r: Socket)
    decreases |events|
  {
    if events == [] then k
    else SendIfConnected(SendAll(k, events[..|events| - 1]), events[|events| - 1])
  }

  lemma SendAllExtends(k: Socket, events: seq<Event>)
    ensures k.sent <= SendAll(k, events).sent
    ensures SendAll(k, events).open == k.open && SendAll(k, events).accepted == k.accepted
    ensures forall e | e in SendAll(k, events).sent[|k.sent|..] :: e in events
  {
    if events != [] {
      var last := events[|events| - 1];
      SendAllExtends(k, events[..|events| - 1]);
      var earlier := SendAll(k, events[..|events| - 1]).sent;
      assert (earlier + [last])[|k.sent|..] == earlier[|k.sent|..] + [last];
      assert events == events[..|events| - 1] + [last];
    }
  }

  // ---------- Replay requested by the control plane's cursor ----------

  type Cursor = seq<(Text, nat)>

  datatype Replay = Replay(events: seq<Event>, unavailable: seq<(Text, nat)>)

  /** The manager's replay: per cursor entry either the owed events or a report. */
  function ReplayFor(history: map<Text, seq<Event>>, retention: nat, cursor: Cursor): Replay {
    if cursor == [] then Replay([], [])
    else
      var entry := cursor[|cursor| - 1];
      var earlier := ReplayFor(history, retention, cursor[..|cursor| - 1]);
      match EventsAfter(Lookup(history, entry.0), retention, entry.1)
      case None => earlier.(unavailable := earlier.unavailable + [entry])
      case Some(owed) => earlier.(events := earlier.events + owed)
  }

  /** The retained window can continue the cursor entry. */
  predicate IsServed(history: map<Text, seq<Event>>, retention: nat, entry: (Text, nat)) {
    var journal := Lookup(history, entry.0);
    journal != [] && |journal| - retention <= entry.1 <= |journal|
  }

  /** Every entry of a cursor is either replayed, by all its later events, or reported. */
  lemma {:induction false} ReplaysCoverTheCursor(history: map<Text, seq<Event>>, retention: nat, cursor: Cursor)
    ensures var replay := ReplayFor(history, retention, cursor);
            && (forall entry :: entry in replay.unavailable <==> entry in cursor && !IsServed(history, retention, entry))
            && (forall e :: e in replay.events
                       <==> exists entry :: entry in cursor && IsServed(history, retention, entry) && e in Lookup(history, entry.0)[entry.1..])
  {
    if cursor != [] {
      var last := cursor[|cursor| - 1];
      ReplaysCoverTheCursor(history, retention, cursor[..|cursor| - 1]);
      assert forall entry :: entry in cursor <==> entry in cursor[..|cursor| - 1] || entry == last;
    }
  }

  /** Without a cursor nothing is replayed; a report that cannot be sent stops the replay. */
  function ReplayOn(k: Socket, history: map<Text, seq<Event>>, retention: nat, cursor: Option<Cursor>): Socket {
    match cursor
    case None => k
    case Some(entries) =>
      var replay := ReplayFor(history, retention, entries);
      if replay.unavailable != [] && !k.open then k else SendAll(k, replay.events)
  }

  class RunnerConnection {
    var socket: Socket
    const store: RunnerStateStore

    constructor (store: RunnerStateStore)
      ensures socket == CLOSED && this.store == store
    {
      socket := CLOSED;
      this.store := store;
    }

    method OpenSocket()
      modifies this
      ensures socket == OPENED
    {
      socket := OPENED;
    }

    method SocketClosed()
      modifies this
      ensures socket == old(socket).(open := false, accepted := false)
    {
      socket := socket.(open := false, accepted := false);
    }

    method SendEventIfConnected(event: Event)
      modifies this
      ensures socket == SendIfConnected(old(socket), event)
    {
      if !socket.open { return; }
      var mark := if event.session in socket.lastSent then socket.lastSent[event.session] else 0;
      if event.sequence <= mark { return; }
      socket := socket.(sent := socket.sent + [event]);
      socket := socket.(lastSent := socket.lastSent[event.session := event.sequence]);
    }

    method ReplayEventsAfter(cursor: Cursor) returns (events: seq<Event>, unavailable: seq<(Text, nat)>)
      requires store.Valid()
      ensures Replay(events, unavailable) == ReplayFor(store.history, store.retention, cursor)
    {
      events, unavailable := [], [];
      for i := 0 to |cursor|
        invariant Replay(events, unavailable) == ReplayFor(store.history, store.retention, cursor[..i])
      {
        assert cursor[..i + 1][..i] == cursor[..i];
        var replayed := store.ReplayEventsAfter(cursor[i].0, cursor[i].1);
        match replayed
        case None => unavailable := unavailable + [cursor[i]];
        case Some(owed) => events := events + owed;
      }
      assert cursor[..|cursor|] == cursor;
    }

    method ReplayRequestedEvents(cursor: Option<Cursor>) returns (completed: bool)
      requires store.Valid()
      modifies this
      ensures socket == ReplayOn(old(socket), store.history, store.retention, cursor)
    {
      if cursor.None? { return true; }
      var events, unavailable := ReplayEventsAfter(cursor.value);
      if unavailable != [] && !socket.open { return false; }
      ghost var before := socket;
      for i := 0 to |events|
        invariant socket == SendAll(before, events[..i])
      {
        assert events[..i + 1][..i] == events[..i];
        SendEventIfConnected(events[i]);
      }
      assert events[..|events|] == events;
      completed := true;
    }
  }
}
