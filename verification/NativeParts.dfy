/** Items and blocks of native text or reasoning, projected from a slice of session events. */
module NativeParts {
  import opened EventFolds
  import opened Options

  datatype Kind = TextParts | ReasoningParts

  datatype Block = Block(message: string, index: nat)

  datatype SegmentKind = Summary | Content | Unspecified

  datatype Location = Location(kind: SegmentKind, index: nat)

  datatype Stream = SummaryStream | ContentStream | OtherStream

  /** What a completion carries, as the schemas tell it apart. */
  datatype Body = Plain(text: string) | Structured(value: string) | Cut(summary: string, reference: Option<string>) | Malformed

  datatype Change =
    | Delta(of: Kind, text: string, location: Option<Location>, stream: Stream)
    | Started(itemType: string)
    | Updated(itemType: string)
    | Completed(itemType: string, content: Option<Body>)
    | Other

  datatype Event = Event(
    session: string, turn: Option<string>, sequence: int, createdAt: string, change: Change,
    block: Option<Block>, item: Option<string>, message: Option<string>, execution: Option<string>)

  datatype Segment = Segment(kind: SegmentKind, index: Option<nat>, text: string)

  datatype Key = BlockKey(block: Block) | ItemKey(execution: Option<string>, item: Option<string>)

  datatype Part = Part(
    key: Key, origin: string, item: Option<string>, message: Option<string>, execution: Option<string>,
    segments: seq<Segment>, completed: bool, firstAt: string, lastAt: string, completedAt: Option<string>, content: Option<Body>)

  datatype State = State(parts: seq<Part>, bytes: nat)

  const NO_PARTS := State([], 0)

  const INPUT_MAX := 16384
  const BYTES_MAX := 8 * 1024 * 1024
  const PART_MAX := 128
  const SEGMENT_MAX := 4096

  // ---------- Which events count ----------

  predicate IsOfKind(kind: Kind, change: Change) {
    match change
    case Delta(of, _, _, _) => of == kind
    case Started(_) => true
    case Updated(_) => true
    case Completed(_, _) => true
    case Other => false
  }

  predicate IsSelected(kind: Kind, session: string, origin: Option<string>, e: Event) {
    e.session == session && (origin.Some? ==> e.turn == origin) && IsOfKind(kind, e.change)
  }

  predicate IsItemType(kind: Kind, itemType: string) {
    if kind.TextParts? then itemType in ["text", "agentMessage"] else itemType == "reasoning"
  }

  /** Passed over before its sequence is looked at: an item of another type, or evidence
      without a place. */
  predicate IsSkipped(kind: Kind, e: Event) {
    || ((e.change.Started? || e.change.Updated? || e.change.Completed?) && !IsItemType(kind, e.change.itemType))
    || (e.block.None? && e.item.None?)
  }

  predicate IsRelevant(kind: Kind, session: string, origin: Option<string>, e: Event) {
    IsSelected(kind, session, origin, e) && !IsSkipped(kind, e)
  }

  function Selected(kind: Kind, session: string, origin: Option<string>, events: seq<Event>): seq<Event> {
    if events == [] then []
    else if !IsSelected(kind, session, origin, events[0]) then Selected(kind, session, origin, events[1..])
    else [events[0]] + Selected(kind, session, origin, events[1..])
  }

  function Unskipped(kind: Kind, events: seq<Event>): seq<Event> {
    if events == [] then []
    else if IsSkipped(kind, events[0]) then Unskipped(kind, events[1..])
    else [events[0]] + Unskipped(kind, events[1..])
  }

  // ---------- One event ----------

  /** Whether the event refuses the whole slice, repeated or not. */
  predicate IsMalformed(kind: Kind, e: Event) {
    || (e.message.Some? && e.block.Some? && e.message.value != e.block.value.message)
    || e.turn.None? || e.turn.value == ""
    || (e.change.Delta? && e.change.location.Some? && (e.block.Some? || kind.TextParts?))
  }

  function KeyOfEvent(e: Event): Key { if e.block.Some? then BlockKey(e.block.value) else ItemKey(e.execution, e.item) }

  function KeyOfPart(p: Part): Key { p.key }

  predicate Differ(a: Option<string>, b: Option<string>) { a.Some? && b.Some? && a != b }

  function Newer(a: Option<string>, b: Option<string>): Option<string> { if b.Some? then b else a }

  /** The part that an event starts. */
  function Begun(e: Event): Part
    requires e.turn.Some?
  {
    Part(KeyOfEvent(e), e.turn.value, e.item, e.message, e.execution, [], false, e.createdAt, e.createdAt, None, None)
  }

  /** Finds the event's part, or starts it. */
  function Enrolled(parts: seq<Part>, e: Event): Option<seq<Part>>
    requires e.turn.Some?
  {
    if IndexBy(KeyOfPart, parts, KeyOfEvent(e)) < |parts| then Some(parts)
    else if |parts| >= PART_MAX then None
    else Some(parts + [Begun(e)])
  }

  function KindOf(location: Option<Location>, stream: Stream): SegmentKind {
    if location.Some? then location.value.kind
    else if stream.SummaryStream? then Summary
    else if stream.ContentStream? then Content
    else Unspecified
  }

  function PlaceOf(s: Segment): (SegmentKind, Option<nat>) { (s.kind, s.index) }

  function AddText(segments: seq<Segment>, kind: SegmentKind, index: Option<nat>, text: string): Option<seq<Segment>> {
    var i := IndexBy(PlaceOf, segments, (kind, index));
    if i < |segments| then Some(segments[i := segments[i].(text := segments[i].text + text)])
    else if |segments| >= SEGMENT_MAX then None
    else Some(segments + [Segment(kind, index, text)])
  }

  predicate IsReadable(kind: Kind, content: Body) {
    match content
    case Plain(_) => true
    case Structured(_) => kind.ReasoningParts?
    case Cut(_, _) => true
    case Malformed => false
  }

  function Changed(kind: Kind, p: Part, e: Event): Option<Part> {
    match e.change
    case Delta(_, text, location, stream) =>
      if p.completed then None
      else
        var index := if location.Some? then Some(location.value.index) else None;
        (match AddText(p.segments, KindOf(location, stream), index, text)
         case None => None
         case Some(segments) => Some(p.(segments := segments)))
    case Completed(_, content) =>
      if content.Some? && !IsReadable(kind, content.value) then None
      else if p.completed && content.Some? && p.content.Some? && p.content != content then None
      else
        Some(p.(completed := true, completedAt := if p.completedAt.Some? then p.completedAt else Some(e.createdAt),
                content := if content.Some? then content else p.content))
    case _ => if p.completed then None else Some(p)
  }

  function Bound(p: Part, e: Event): Option<Part>
    requires e.turn.Some?
  {
    if p.origin != e.turn.value || Differ(p.message, e.message) || Differ(p.item, e.item) || Differ(p.execution, e.execution) then None
    else
      Some(p.(message := Newer(p.message, e.message), item := Newer(p.item, e.item),
              execution := Newer(p.execution, e.execution), lastAt := e.createdAt))
  }

  /** What an event does to its part. */
  function Taken(kind: Kind, p: Part, e: Event): Option<Part>
    requires e.turn.Some?
  {
    match Bound(p, e)
    case None => None
    case Some(bound) => Changed(kind, bound, e)
  }

  function PartStep(kind: Kind, bytes: Event -> nat, s: State, e: Event): Option<State> {
    if IsSkipped(kind, e) || IsMalformed(kind, e) || s.bytes + bytes(e) > BYTES_MAX then None
    else
      match Enrolled(s.parts, e)
      case None => None
      case Some(parts) =>
        var i := IndexBy(KeyOfPart, parts, KeyOfEvent(e));
        if i == |parts| then None
        else
          match Taken(kind, parts[i], e)
          case None => None
          case Some(part) => Some(State(parts[i := part], s.bytes + bytes(e)))
  }

  function SequenceOf(e: Event): int { e.sequence }

  /** The projection of a slice; None when it conflicts or exceeds a bound. */
  function NativeParts(kind: Kind, bytes: Event -> nat, events: seq<Event>, session: string, origin: Option<string>): Option<seq<Part>> {
    if |events| > INPUT_MAX then None
    else
      match Projected((s, e) => PartStep(kind, bytes, s, e), SequenceOf, NO_PARTS, Unskipped(kind, Selected(kind, session, origin, events)))
      case None => None
      case Some(s) => Some(s.parts)
  }

  // ---------- The loop ----------

  /** Passing over events does not disturb the order of the others. */
  lemma {:induction false} InsertSkips(kind: Kind, e: Event, sorted: seq<Event>)
    requires IsSorted(SequenceOf, sorted)
    ensures Unskipped(kind, InsertBySequence(SequenceOf, e, sorted))
         == if IsSkipped(kind, e) then Unskipped(kind, sorted) else InsertBySequence(SequenceOf, e, Unskipped(kind, sorted))
  {
    var all := InsertBySequence(SequenceOf, e, sorted);
    if sorted == [] || e.sequence <= sorted[0].sequence {
      assert all[1..] == sorted;
      if !IsSkipped(kind, e) { InsertFirst(kind, e, sorted); }
    } else {
      InsertSkips(kind, e, sorted[1..]);
      assert all[1..] == InsertBySequence(SequenceOf, e, sorted[1..]);
      if !IsSkipped(kind, sorted[0]) {
        var rest := Unskipped(kind, sorted[1..]);
        assert Unskipped(kind, sorted)[0] == sorted[0] && Unskipped(kind, sorted)[1..] == rest;
      }
    }
  }

  lemma {:induction false} InsertFirst(kind: Kind, e: Event, sorted: seq<Event>)
    requires forall i | 0 <= i < |sorted| :: e.sequence <= sorted[i].sequence
    ensures InsertBySequence(SequenceOf, e, Unskipped(kind, sorted)) == [e] + Unskipped(kind, sorted)
  {
    if sorted != [] { InsertFirst(kind, e, sorted[1..]); }
  }

  lemma {:induction false} SortSkips(kind: Kind, events: seq<Event>)
    ensures Unskipped(kind, BySequence(SequenceOf, events)) == BySequence(SequenceOf, Unskipped(kind, events))
  {
    if events != [] {
      SortSkips(kind, events[1..]);
      SortSorts(SequenceOf, events[1..]);
      InsertSkips(kind, events[0], BySequence(SequenceOf, events[1..]));
      if !IsSkipped(kind, events[0]) {
        var rest := Unskipped(kind, events[1..]);
        assert ([events[0]] + rest)[1..] == rest;
      }
    }
  }

  /** The loop drops skipped events as it meets them, and refuses malformed ones before it
      looks at their sequence. */
  method ProjectNativeParts(kind: Kind, bytes: Event -> nat, inputs: seq<Event>, session: string, origin: Option<string>)
    returns (result: Option<seq<Part>>)
    ensures result == NativeParts(kind, bytes, inputs, session, origin)
  {
    hide IsSkipped, IsMalformed, PartStep;
    if |inputs| > INPUT_MAX { return None; }
    var selected := Selected(kind, session, origin, inputs);
    var events := BySequence(SequenceOf, selected);
    SortSkips(kind, selected);
    ghost var step := (s, e) => PartStep(kind, bytes, s, e);
    ghost var goal := FoldOnce(step, SequenceOf, NO_PARTS, map[], Unskipped(kind, events));
    var sequences: map<int, Event>, state := map[], NO_PARTS;
    for n := 0 to |events|
      invariant FoldOnce(step, SequenceOf, state, sequences, Unskipped(kind, events[n..])) == goal
      invariant forall k | k in sequences :: !IsMalformed(kind, sequences[k])
    {
      var e := events[n];
      UnskippedStep(kind, events, n);
      if IsSkipped(kind, e) { continue; }
      ghost var left := Unskipped(kind, events[n + 1..]);
      assert Unskipped(kind, events[n..]) == [e] + left && ([e] + left)[1..] == left;
      if IsMalformed(kind, e) {
        MalformedFails(kind, bytes, state, e);
        return None;
      }
      if e.sequence in sequences {
        if sequences[e.sequence] != e { return None; }
        continue;
      }
      var next := PartStep(kind, bytes, state, e);
      if next.None? { return None; }
      sequences, state := sequences[e.sequence := e], next.value;
    }
    return Some(state.parts);
  }

  lemma UnskippedStep(kind: Kind, events: seq<Event>, n: nat)
    requires n < |events|
    ensures var rest := Unskipped(kind, events[n + 1..]);
            Unskipped(kind, events[n..]) == if IsSkipped(kind, events[n]) then rest else [events[n]] + rest
  {
    assert events[n..][1..] == events[n + 1..];
  }

  lemma MalformedFails(kind: Kind, bytes: Event -> nat, s: State, e: Event)
    requires IsMalformed(kind, e)
    ensures PartStep(kind, bytes, s, e).None?
  {}

  // ---------- Order and repetition ----------

  lemma {:induction false} RelevantElements(kind: Kind, session: string, origin: Option<string>, events: seq<Event>)
    ensures forall e :: e in Unskipped(kind, Selected(kind, session, origin, events)) <==> e in events && IsRelevant(kind, session, origin, e)
  {
    hide IsSelected, IsSkipped;
    if events != [] {
      RelevantElements(kind, session, origin, events[1..]);
      InTail(events);
      var rest := Selected(kind, session, origin, events[1..]);
      assert ([events[0]] + rest)[1..] == rest;
    }
  }

  /** Within the input bound the parts depend only on the set of relevant events: events that
      are skipped, their order, and repetitions make no difference. */
  lemma PartsIgnoreOrderAndRepetition(kind: Kind, bytes: Event -> nat, a: seq<Event>, b: seq<Event>, session: string, origin: Option<string>)
    requires |a| <= INPUT_MAX && |b| <= INPUT_MAX
    requires forall e | IsRelevant(kind, session, origin, e) :: e in a <==> e in b
    ensures NativeParts(kind, bytes, a, session, origin) == NativeParts(kind, bytes, b, session, origin)
  {
    hide IsRelevant, PartStep;
    RelevantElements(kind, session, origin, a);
    RelevantElements(kind, session, origin, b);
    OrderAndRepetitionDoNotMatter((s, e) => PartStep(kind, bytes, s, e), SequenceOf, NO_PARTS,
                                  Unskipped(kind, Selected(kind, session, origin, a)), Unskipped(kind, Selected(kind, session, origin, b)));
  }

  // ---------- What the parts are ----------

  function IsOf(key: Key): Event -> bool { (e: Event) => KeyOfEvent(e) == key }

  function GivesItem(key: Key): Event -> bool { (e: Event) => KeyOfEvent(e) == key && e.item.Some? }

  function GivesMessage(key: Key): Event -> bool { (e: Event) => KeyOfEvent(e) == key && e.message.Some? }

  function GivesExecution(key: Key): Event -> bool { (e: Event) => KeyOfEvent(e) == key && e.execution.Some? }

  function Completes(key: Key): Event -> bool { (e: Event) => KeyOfEvent(e) == key && e.change.Completed? }

  function Concludes(key: Key): Event -> bool { (e: Event) => KeyOfEvent(e) == key && ContentOf(e).Some? }

  function Speaks(key: Key): Event -> bool { (e: Event) => KeyOfEvent(e) == key && e.change.Delta? }

  function ContentOf(e: Event): Option<Body> { if e.change.Completed? then e.change.content else None }

  function TextOf(e: Event): string { if e.change.Delta? then e.change.text else [] }

  /** The segment a delta belongs to. */
  function PlaceOfEvent(e: Event): (SegmentKind, Option<nat>) {
    match e.change
    case Delta(_, _, Some(location), _) => (location.kind, Some(location.index))
    case Delta(_, _, None, SummaryStream) => (Summary, None)
    case Delta(_, _, None, ContentStream) => (Content, None)
    case _ => (Unspecified, None)
  }

  /** The texts of the deltas of one place, in the order of the list. */
  function TextAt(deltas: seq<Event>, place: (SegmentKind, Option<nat>)): string {
    if deltas == [] then []
    else
      var n := |deltas| - 1;
      TextAt(deltas[..n], place) + if PlaceOfEvent(deltas[n]) == place then TextOf(deltas[n]) else []
  }

  function SegmentFor(deltas: seq<Event>, place: (SegmentKind, Option<nat>)): Segment {
    Segment(place.0, place.1, TextAt(deltas, place))
  }

  /** One segment for each place, in the order in which the places first appear. */
  function SegmentsOf(deltas: seq<Event>): seq<Segment> { Table(PlaceOfEvent, SegmentFor, deltas) }

  /** The part as its events name it: the turn and time of its first event, the time of its last,
      and the item, message and execution named by any. */
  function Named(events: seq<Event>, key: Key): Part {
    var first, last := First(IsOf(key), events), Last(IsOf(key), events);
    var item, message, execution := First(GivesItem(key), events), First(GivesMessage(key), events), First(GivesExecution(key), events);
    Part(key, if first.Some? && first.value.turn.Some? then first.value.turn.value else "",
         if item.Some? then item.value.item else None,
         if message.Some? then message.value.message else None,
         if execution.Some? then execution.value.execution else None,
         [], false, if first.Some? then first.value.createdAt else "", if last.Some? then last.value.createdAt else "", None, None)
  }

  /** What the deltas and completions of a part say, put into a part. */
  function Told(p: Part, events: seq<Event>, key: Key): Part {
    var ended, content := First(Completes(key), events), First(Concludes(key), events);
    p.(segments := SegmentsOf(Filter(Speaks(key), events)), completed := ended.Some?,
       completedAt := if ended.Some? then Some(ended.value.createdAt) else None,
       content := if content.Some? then ContentOf(content.value) else None)
  }

  /** The part the events describe. */
  function PartFor(events: seq<Event>, key: Key): (p: Part)
    ensures p.key == key
  {
    Told(Named(events, key), events, key)
  }

  function TotalBytes(bytes: Event -> nat, events: seq<Event>): nat {
    if events == [] then 0 else TotalBytes(bytes, events[..|events| - 1]) + bytes(events[|events| - 1])
  }

  /** Two events of one part name one turn, and no two items, messages, executions or contents. */
  predicate PartsAgree(d: Event, e: Event) {
    KeyOfEvent(d) == KeyOfEvent(e) ==>
      && d.turn == e.turn && !Differ(d.item, e.item) && !Differ(d.message, e.message) && !Differ(d.execution, e.execution)
      && (ContentOf(d).Some? && ContentOf(e).Some? ==> ContentOf(d) == ContentOf(e))
  }

  /** After a completion of a part come only completions of it. */
  predicate MayPrecede(d: Event, e: Event) {
    PartsAgree(d, e) && (KeyOfEvent(d) == KeyOfEvent(e) && d.change.Completed? ==> e.change.Completed?)
  }

  /** A delta goes to one of at most 4096 segments of its part, and a completion can be read. */
  predicate HasRoom(kind: Kind, done: seq<Event>, e: Event) {
    match e.change
    case Delta(_, _, _, _) =>
      var places := Keys(PlaceOfEvent, Filter(Speaks(KeyOfEvent(e)), done));
      PlaceOfEvent(e) in places || |places| < SEGMENT_MAX
    case Completed(_, content) => content != Some(Malformed) && (content.Some? && content.value.Structured? ==> kind == ReasoningParts)
    case _ => true
  }

  function TypesOf(kind: Kind): set<string> { if kind == TextParts then {"text", "agentMessage"} else {"reasoning"} }

  /** An event of a part that can be read: it has a place and a turn, speaks of one message, is of
      an item of the kind if it is of any, and names a segment only outside of blocks and in reasoning. */
  predicate IsEvidence(kind: Kind, e: Event) {
    && (e.block.Some? || e.item.Some?) && e.turn.Some? && e.turn != Some("")
    && (e.block.Some? && e.message.Some? ==> e.block.value.message == e.message.value)
    && match e.change
       case Delta(_, _, location, _) => location.Some? ==> kind == ReasoningParts && e.block.None?
       case Started(itemType) => itemType in TypesOf(kind)
       case Updated(itemType) => itemType in TypesOf(kind)
       case Completed(itemType, _) => itemType in TypesOf(kind)
       case Other => true
  }

  lemma EvidenceIs(kind: Kind, e: Event)
    ensures IsEvidence(kind, e) <==> !IsSkipped(kind, e) && !IsMalformed(kind, e)
  {}

  /** The events of the slice that count: of its session and origin, of the kind, and with a place. */
  predicate Counts(kind: Kind, session: string, origin: Option<string>, e: Event) {
    && e.session == session && (origin.None? || e.turn == origin) && (e.block.Some? || e.item.Some?)
    && match e.change
       case Delta(of, _, _, _) => of == kind
       case Started(itemType) => itemType in TypesOf(kind)
       case Updated(itemType) => itemType in TypesOf(kind)
       case Completed(itemType, _) => itemType in TypesOf(kind)
       case Other => false
  }

  lemma RelevantCounts(kind: Kind, session: string, origin: Option<string>, e: Event)
    ensures IsRelevant(kind, session, origin, e) <==> Counts(kind, session, origin, e)
  {}

  /** Two events are of one part exactly when they are of one block or, without one, of one item
      of one execution. */
  lemma PartsAreKeyed(d: Event, e: Event)
    ensures KeyOfEvent(d) == KeyOfEvent(e)
       <==> d.block == e.block && (d.block.None? ==> d.execution == e.execution && d.item == e.item)
  {}

  /** An event may follow others when it can be read, its part is one of at most 128, the bytes
      stay within their bound, it has room, and every one of them may precede it. */
  ghost predicate PartMayFollow(kind: Kind, bytes: Event -> nat, done: seq<Event>, e: Event) {
    && IsEvidence(kind, e) && TotalBytes(bytes, done) + bytes(e) <= BYTES_MAX
    && (KeyOfEvent(e) in Keys(KeyOfEvent, done) || |Keys(KeyOfEvent, done)| < PART_MAX)
    && HasRoom(kind, done, e)
    && forall d | d in done :: MayPrecede(d, e)
  }

  function PartsOf(bytes: Event -> nat, events: seq<Event>): State {
    State(Table(KeyOfEvent, PartFor, events), TotalBytes(bytes, events))
  }

  ghost predicate AllAgree(events: seq<Event>) { forall d, e | d in events && e in events :: PartsAgree(d, e) }

  lemma AdmittedAgree(kind: Kind, bytes: Event -> nat, events: seq<Event>)
    requires Admitted((d, e) => PartMayFollow(kind, bytes, d, e), events)
    ensures AllAgree(events)
  {
    hide PartMayFollow, MayPrecede, PartsAgree, Admitted;
    forall d, e | d in events && e in events ensures PartsAgree(d, e) {
      var i :| 0 <= i < |events| && events[i] == d;
      var j :| 0 <= j < |events| && events[j] == e;
      AgreeAt(kind, bytes, events, i, j);
    }
  }

  lemma AgreeAt(kind: Kind, bytes: Event -> nat, events: seq<Event>, i: nat, j: nat)
    requires Admitted((d, e) => PartMayFollow(kind, bytes, d, e), events) && i < |events| && j < |events|
    ensures PartsAgree(events[i], events[j])
  {
    hide HasRoom, IsSkipped, IsMalformed, KeyOfEvent, ContentOf;
    var may := (d, e) => PartMayFollow(kind, bytes, d, e);
    if i < j { assert may(events[..j], events[j]) && events[..j][i] in events[..j]; }
    if j < i { assert may(events[..i], events[i]) && events[..i][j] in events[..i]; }
  }

  // A delta's text.

  lemma TextGrows(deltas: seq<Event>, e: Event, place: (SegmentKind, Option<nat>))
    ensures TextAt(deltas + [e], place) == TextAt(deltas, place) + if PlaceOfEvent(e) == place then TextOf(e) else []
  {
    assert (deltas + [e])[..|deltas|] == deltas;
  }

  lemma {:induction false} NoTextYet(deltas: seq<Event>, place: (SegmentKind, Option<nat>))
    requires place !in Keys(PlaceOfEvent, deltas)
    ensures TextAt(deltas, place) == []
  {
    if deltas != [] {
      var n := |deltas| - 1;
      assert deltas[n] in deltas && PlaceOfEvent(deltas[n]) != place;
      assert forall e :: e in deltas[..n] ==> e in deltas;
      NoTextYet(deltas[..n], place);
    }
  }

  lemma SegmentIndex(deltas: seq<Event>, place: (SegmentKind, Option<nat>))
    ensures IndexBy(PlaceOf, SegmentsOf(deltas), place) == IndexBy(k => k, Keys(PlaceOfEvent, deltas), place)
  {
    hide TextAt, Keys;
    var keys, segments := Keys(PlaceOfEvent, deltas), SegmentsOf(deltas);
    var i, j := IndexBy(PlaceOf, segments, place), IndexBy(k => k, keys, place);
    assert forall n | 0 <= n < |segments| :: PlaceOf(segments[n]) == keys[n];
    if i < |segments| { assert keys[i] == place; }
    if j < |segments| { assert PlaceOf(segments[j]) == place; }
  }

  lemma SegmentsGrow(deltas: seq<Event>, e: Event)
    ensures var place, segments := PlaceOfEvent(e), SegmentsOf(deltas);
            var i := IndexBy(k => k, Keys(PlaceOfEvent, deltas), place);
            var grown := Segment(place.0, place.1, TextAt(deltas, place) + TextOf(e));
            SegmentsOf(deltas + [e]) == if i < |segments| then segments[i := grown] else segments + [grown]
  {
    hide TextAt, Keys;
    var place := PlaceOfEvent(e);
    forall k | k != place ensures SegmentFor(deltas + [e], k) == SegmentFor(deltas, k) { TextGrows(deltas, e, k); }
    TableGrows(PlaceOfEvent, SegmentFor, deltas, e);
    TextGrows(deltas, e, place);
  }

  /** Adding a delta's text to the segments described so far. */
  lemma TextIsAdded(deltas: seq<Event>, e: Event)
    ensures var place := PlaceOfEvent(e);
            AddText(SegmentsOf(deltas), place.0, place.1, TextOf(e))
            == if place in Keys(PlaceOfEvent, deltas) || |Keys(PlaceOfEvent, deltas)| < SEGMENT_MAX then Some(SegmentsOf(deltas + [e])) else None
  {
    hide TextAt, Keys, TextOf, PlaceOfEvent, IndexBy;
    var place := PlaceOfEvent(e);
    SegmentIndex(deltas, place);
    SegmentsGrow(deltas, e);
    if place in Keys(PlaceOfEvent, deltas) { return; }
    NoTextYet(deltas, place);
    assert [] + TextOf(e) == TextOf(e);
  }

  // An event's part.

  function Older(a: Option<string>, b: Option<string>): Option<string> { if a.Some? then a else b }

  lemma ToldGrows(p: Part, done: seq<Event>, e: Event, key: Key)
    ensures key != KeyOfEvent(e) ==> Told(p, done + [e], key) == Told(p, done, key)
    ensures key == KeyOfEvent(e) && e.change.Delta? ==>
              Told(p, done + [e], key) == Told(p, done, key).(segments := SegmentsOf(Filter(Speaks(key), done) + [e]))
    ensures key == KeyOfEvent(e) && e.change.Completed? ==>
              var was := Told(p, done, key);
              Told(p, done + [e], key)
              == was.(completed := true, completedAt := if was.completedAt.Some? then was.completedAt else Some(e.createdAt),
                      content := if was.content.Some? then was.content else ContentOf(e))
    ensures key == KeyOfEvent(e) && !e.change.Delta? && !e.change.Completed? ==> Told(p, done + [e], key) == Told(p, done, key)
  {
    hide KeyOfEvent, SegmentsOf, First, Filter;
    FirstGrows(Completes(key), done, e);
    FirstGrows(Concludes(key), done, e);
    FilterGrows(Speaks(key), done, e);
  }

  /** The change an event makes to a part that says what the events so far tell. */
  lemma ChangedDescribes(kind: Kind, p: Part, done: seq<Event>, e: Event)
    requires p == Told(p, done, KeyOfEvent(e))
    ensures Changed(kind, p, e)
         == if HasRoom(kind, done, e) && (p.completed ==> e.change.Completed?)
               && (p.content.Some? && ContentOf(e).Some? ==> p.content == ContentOf(e))
            then Some(Told(p, done + [e], KeyOfEvent(e))) else None
  {
    hide KeyOfEvent, Keys, Told, SegmentsOf, AddText;
    ToldGrows(p, done, e, KeyOfEvent(e));
    ContentEnds(p, done, KeyOfEvent(e));
    if e.change.Delta? {
      TextIsAdded(Filter(Speaks(KeyOfEvent(e)), done), e);
      SegmentsAreTold(p, done, KeyOfEvent(e));
    }
  }

  lemma SegmentsAreTold(p: Part, done: seq<Event>, key: Key)
    ensures Told(p, done, key).segments == SegmentsOf(Filter(Speaks(key), done))
  {}

  lemma ContentEnds(p: Part, done: seq<Event>, key: Key)
    ensures var q := Told(p, done, key); (q.content.Some? ==> q.completed) && (q.completed <==> q.completedAt.Some?)
  {
    var content := First(Concludes(key), done);
    if content.Some? { assert Completes(key)(content.value); }
  }

  // The names of a part.

  lemma NamedGrows(done: seq<Event>, e: Event, key: Key)
    ensures key != KeyOfEvent(e) ==> Named(done + [e], key) == Named(done, key)
    ensures key == KeyOfEvent(e) && First(IsOf(key), done).Some? ==>
              var was := Named(done, key);
              Named(done + [e], key) == was.(item := Older(was.item, e.item), message := Older(was.message, e.message),
                                             execution := Older(was.execution, e.execution), lastAt := e.createdAt)
  {
    hide KeyOfEvent, First, Last, Filter;
    FirstGrows(IsOf(key), done, e);
    FirstGrows(GivesItem(key), done, e);
    FirstGrows(GivesMessage(key), done, e);
    FirstGrows(GivesExecution(key), done, e);
    FilterGrows(IsOf(key), done, e);
  }

  lemma NothingOf(done: seq<Event>, key: Key)
    requires key !in Keys(KeyOfEvent, done)
    ensures First(IsOf(key), done).None? && First(GivesItem(key), done).None? && First(GivesMessage(key), done).None?
    ensures First(GivesExecution(key), done).None? && First(Completes(key), done).None? && First(Concludes(key), done).None?
    ensures Filter(Speaks(key), done) == []
  {
    hide KeyOfEvent, First;
    assert forall d | d in done :: KeyOfEvent(d) != key;
    NoneFits(Speaks(key), done);
  }

  lemma NamedBegins(done: seq<Event>, e: Event)
    requires KeyOfEvent(e) !in Keys(KeyOfEvent, done) && e.turn.Some?
    ensures Named(done + [e], KeyOfEvent(e)) == Begun(e)
    ensures Told(Begun(e), done, KeyOfEvent(e)) == Begun(e)
  {
    hide KeyOfEvent, First, Last, Filter;
    var key := KeyOfEvent(e);
    NothingOf(done, key);
    FirstGrows(IsOf(key), done, e);
    FirstGrows(GivesItem(key), done, e);
    FirstGrows(GivesMessage(key), done, e);
    FirstGrows(GivesExecution(key), done, e);
    FilterGrows(IsOf(key), done, e);
  }

  /** Among agreeing events, the part described says what each of its events says. */
  lemma PartMatches(done: seq<Event>, d: Event)
    requires AllAgree(done) && d in done
    ensures var p := PartFor(done, KeyOfEvent(d));
            && (d.turn.Some? ==> p.origin == d.turn.value) && (d.item.Some? ==> p.item == d.item)
            && (d.message.Some? ==> p.message == d.message) && (d.execution.Some? ==> p.execution == d.execution)
            && (ContentOf(d).Some? ==> p.content == ContentOf(d)) && (d.change.Completed? ==> p.completed)
  {
    hide Named, Told;
    NamesMatch(done, d);
    ContentMatches(Named(done, KeyOfEvent(d)), done, d);
    ToldKeepsNames(Named(done, KeyOfEvent(d)), done, KeyOfEvent(d));
  }

  lemma NamesMatch(done: seq<Event>, d: Event)
    requires AllAgree(done) && d in done
    ensures var p := Named(done, KeyOfEvent(d));
            && (d.turn.Some? ==> p.origin == d.turn.value) && (d.item.Some? ==> p.item == d.item)
            && (d.message.Some? ==> p.message == d.message) && (d.execution.Some? ==> p.execution == d.execution)
  {
    hide KeyOfEvent, ContentOf, First, Last, PartsAgree;
    var key := KeyOfEvent(d);
    assert IsOf(key)(d) && GivesItem(key)(d) == d.item.Some? && GivesMessage(key)(d) == d.message.Some?;
    assert GivesExecution(key)(d) == d.execution.Some?;
    forall x | x in done && KeyOfEvent(x) == key
      ensures x.turn == d.turn && !Differ(x.item, d.item) && !Differ(x.message, d.message) && !Differ(x.execution, d.execution) {
      AgreeOnNames(done, x, d);
    }
  }

  lemma AgreeOnNames(done: seq<Event>, d: Event, e: Event)
    requires AllAgree(done) && d in done && e in done && KeyOfEvent(d) == KeyOfEvent(e)
    ensures d.turn == e.turn && !Differ(d.item, e.item) && !Differ(d.message, e.message) && !Differ(d.execution, e.execution)
  {
    hide KeyOfEvent, ContentOf;
    assert PartsAgree(d, e);
  }

  lemma ContentMatches(p: Part, done: seq<Event>, d: Event)
    requires AllAgree(done) && d in done
    ensures var q := Told(p, done, KeyOfEvent(d)); (ContentOf(d).Some? ==> q.content == ContentOf(d)) && (d.change.Completed? ==> q.completed)
  {
    hide KeyOfEvent, Filter, SegmentsOf;
    var key := KeyOfEvent(d);
    assert Concludes(key)(d) == ContentOf(d).Some? && Completes(key)(d) == d.change.Completed?;
  }

  lemma ToldKeepsNames(p: Part, events: seq<Event>, key: Key)
    ensures var q := Told(p, events, key);
            && q.key == p.key && q.origin == p.origin && q.item == p.item && q.message == p.message && q.execution == p.execution
            && q.firstAt == p.firstAt && q.lastAt == p.lastAt
  {}

  /** And what it says, one of its events says. */
  lemma PartComesFrom(done: seq<Event>, key: Key)
    requires key in Keys(KeyOfEvent, done) && forall d | d in done :: d.turn.Some?
    ensures var p := PartFor(done, key);
            && First(IsOf(key), done).Some?
            && (exists d :: d in done && KeyOfEvent(d) == key && d.turn == Some(p.origin))
            && (p.item.Some? ==> exists d :: d in done && KeyOfEvent(d) == key && d.item == p.item)
            && (p.message.Some? ==> exists d :: d in done && KeyOfEvent(d) == key && d.message == p.message)
            && (p.execution.Some? ==> exists d :: d in done && KeyOfEvent(d) == key && d.execution == p.execution)
            && (p.content.Some? ==> exists d :: d in done && KeyOfEvent(d) == key && ContentOf(d) == p.content)
            && (p.completed ==> exists d :: d in done && KeyOfEvent(d) == key && d.change.Completed?)
  {
    hide KeyOfEvent, Filter, SegmentsOf;
    var e :| e in done && KeyOfEvent(e) == key;
    assert IsOf(key)(e);
  }

  // The step.

  predicate NamesAgree(p: Part, e: Event) {
    e.turn == Some(p.origin) && !Differ(p.message, e.message) && !Differ(p.item, e.item) && !Differ(p.execution, e.execution)
  }

  predicate ContentAgrees(p: Part, e: Event) {
    (p.completed ==> e.change.Completed?) && (p.content.Some? && ContentOf(e).Some? ==> p.content == ContentOf(e))
  }

  /** Every event so far may precede the next exactly when the part described agrees with it. */
  lemma PrecedeIsAgree(done: seq<Event>, e: Event)
    requires AllAgree(done) && (forall d | d in done :: d.turn.Some?) && KeyOfEvent(e) in Keys(KeyOfEvent, done)
    ensures (forall d | d in done :: MayPrecede(d, e)) <==> NamesAgree(PartFor(done, KeyOfEvent(e)), e) && ContentAgrees(PartFor(done, KeyOfEvent(e)), e)
  {
    hide PartFor, KeyOfEvent, ContentOf, Keys, AllAgree, First, IsOf;
    var p := PartFor(done, KeyOfEvent(e));
    if NamesAgree(p, e) && ContentAgrees(p, e) {
      forall d | d in done ensures MayPrecede(d, e) { PartMatches(done, d); }
    } else {
      PartComesFrom(done, KeyOfEvent(e));
    }
  }

  lemma OthersMayPrecede(done: seq<Event>, e: Event)
    requires KeyOfEvent(e) !in Keys(KeyOfEvent, done)
    ensures forall d | d in done :: MayPrecede(d, e)
  {
    hide ContentOf;
    forall d | d in done ensures MayPrecede(d, e) { assert KeyOfEvent(d) in Keys(KeyOfEvent, done); }
  }

  /** What the next event does to its part, known or new. */
  lemma TakenByKnown(kind: Kind, done: seq<Event>, e: Event)
    requires KeyOfEvent(e) in Keys(KeyOfEvent, done) && First(IsOf(KeyOfEvent(e)), done).Some? && e.turn.Some?
    ensures var p := PartFor(done, KeyOfEvent(e));
            Taken(kind, p, e) == if HasRoom(kind, done, e) && NamesAgree(p, e) && ContentAgrees(p, e) then Some(PartFor(done + [e], KeyOfEvent(e))) else None
  {
    hide KeyOfEvent, ContentOf, Keys, First, IsOf, HasRoom, Changed, Named, Told;
    var key := KeyOfEvent(e);
    var p := PartFor(done, key);
    ToldKeepsNames(Named(done, key), done, key);
    if !NamesAgree(p, e) { return; }
    NamedGrows(done, e, key);
    var bound, names := Bound(p, e).value, Named(done + [e], key);
    ToldOfOther(Named(done, key), names, done, key);
    assert bound == Told(names, done, key);
    ToldAgain(names, done, done, key);
    ToldAgain(names, done, done + [e], key);
    ChangedDescribes(kind, bound, done, e);
  }

  lemma TakenByNew(kind: Kind, done: seq<Event>, e: Event)
    requires KeyOfEvent(e) !in Keys(KeyOfEvent, done) && e.turn.Some?
    ensures Taken(kind, Begun(e), e) == if HasRoom(kind, done, e) then Some(PartFor(done + [e], KeyOfEvent(e))) else None
  {
    hide KeyOfEvent, ContentOf, Keys, First, IsOf, HasRoom, Changed, Named, Told;
    NamedBegins(done, e);
    ChangedDescribes(kind, Begun(e), done, e);
  }

  /** What is told does not depend on the names, nor on what was told before. */
  lemma ToldOfOther(p: Part, q: Part, events: seq<Event>, key: Key)
    requires p.key == q.key && p.origin == q.origin && p.firstAt == q.firstAt
    ensures Told(p, events, key).(item := q.item, message := q.message, execution := q.execution, lastAt := q.lastAt) == Told(q, events, key)
  {}

  lemma ToldAgain(p: Part, a: seq<Event>, b: seq<Event>, key: Key)
    ensures Told(Told(p, a, key), b, key) == Told(p, b, key)
  {}

  lemma PartIndex(done: seq<Event>, key: Key)
    ensures IndexBy(KeyOfPart, Table(KeyOfEvent, PartFor, done), key) == IndexBy(k => k, Keys(KeyOfEvent, done), key)
  {
    hide Named, Told, Keys, KeyOfEvent;
    var keys, parts := Keys(KeyOfEvent, done), Table(KeyOfEvent, PartFor, done);
    var i, j := IndexBy(KeyOfPart, parts, key), IndexBy(k => k, keys, key);
    assert forall n | 0 <= n < |parts| :: KeyOfPart(parts[n]) == keys[n];
    if i < |parts| { assert keys[i] == key; }
    if j < |parts| { assert KeyOfPart(parts[j]) == key; }
  }

  lemma PartForGrows(done: seq<Event>, e: Event, key: Key)
    requires key != KeyOfEvent(e)
    ensures PartFor(done + [e], key) == PartFor(done, key)
  {
    hide KeyOfEvent, Named, Told;
    NamedGrows(done, e, key);
    ToldGrows(Named(done, key), done, e, key);
  }

  lemma PartsGrow(done: seq<Event>, e: Event)
    ensures var i, parts := IndexBy(k => k, Keys(KeyOfEvent, done), KeyOfEvent(e)), Table(KeyOfEvent, PartFor, done);
            Table(KeyOfEvent, PartFor, done + [e])
            == if i < |parts| then parts[i := PartFor(done + [e], KeyOfEvent(e))] else parts + [PartFor(done + [e], KeyOfEvent(e))]
  {
    hide PartFor, KeyOfEvent, Keys;
    forall k | k != KeyOfEvent(e) ensures PartFor(done + [e], k) == PartFor(done, k) { PartForGrows(done, e, k); }
    TableGrows(KeyOfEvent, PartFor, done, e);
  }

  lemma BytesGrow(bytes: Event -> nat, done: seq<Event>, e: Event)
    ensures TotalBytes(bytes, done + [e]) == TotalBytes(bytes, done) + bytes(e)
  {
    assert (done + [e])[..|done|] == done;
  }

  lemma StepOnKnown(kind: Kind, bytes: Event -> nat, s: State, i: nat, e: Event)
    requires !IsSkipped(kind, e) && !IsMalformed(kind, e) && i < |s.parts| && IndexBy(KeyOfPart, s.parts, KeyOfEvent(e)) == i
    ensures PartStep(kind, bytes, s, e)
         == if s.bytes + bytes(e) > BYTES_MAX || Taken(kind, s.parts[i], e).None? then None
            else Some(State(s.parts[i := Taken(kind, s.parts[i], e).value], s.bytes + bytes(e)))
  {
    hide Taken, IndexBy, KeyOfEvent, IsSkipped;
  }

  lemma StepOnNew(kind: Kind, bytes: Event -> nat, s: State, e: Event)
    requires !IsSkipped(kind, e) && !IsMalformed(kind, e) && IndexBy(KeyOfPart, s.parts, KeyOfEvent(e)) == |s.parts|
    ensures PartStep(kind, bytes, s, e)
         == if s.bytes + bytes(e) > BYTES_MAX || |s.parts| >= PART_MAX || Taken(kind, Begun(e), e).None? then None
            else Some(State(s.parts + [Taken(kind, Begun(e), e).value], s.bytes + bytes(e)))
  {
    hide Taken, IndexBy, KeyOfEvent, IsSkipped;
    NewPartIsLast(s.parts, Begun(e));
    assert forall q :: (s.parts + [Begun(e)])[|s.parts| := q] == s.parts + [q];
  }

  lemma NewPartIsLast(parts: seq<Part>, p: Part)
    requires IndexBy(KeyOfPart, parts, p.key) == |parts|
    ensures IndexBy(KeyOfPart, parts + [p], p.key) == |parts|
  {
    assert forall j | 0 <= j < |parts| :: KeyOfPart((parts + [p])[j]) == KeyOfPart(parts[j]) && KeyOfPart(parts[j]) != p.key;
    assert KeyOfPart((parts + [p])[|parts|]) == p.key;
  }

  lemma KnownDescribes(kind: Kind, bytes: Event -> nat, done: seq<Event>, e: Event)
    requires !IsSkipped(kind, e) && !IsMalformed(kind, e) && KeyOfEvent(e) in Keys(KeyOfEvent, done)
    requires AllAgree(done) && forall d | d in done :: d.turn.Some?
    ensures PartStep(kind, bytes, PartsOf(bytes, done), e) == if PartMayFollow(kind, bytes, done, e) then Some(PartsOf(bytes, done + [e])) else None
  {
    hide IsSkipped, KeyOfEvent, PartFor, Taken, HasRoom, MayPrecede, NamesAgree, ContentAgrees, TotalBytes, PartStep, Keys, Table, IndexBy, IsEvidence, First, AllAgree;
    EvidenceIs(kind, e);
    PartIndex(done, KeyOfEvent(e));
    PartsGrow(done, e);
    BytesGrow(bytes, done, e);
    PrecedeIsAgree(done, e);
    PartComesFrom(done, KeyOfEvent(e));
    TakenByKnown(kind, done, e);
    StepOnKnown(kind, bytes, PartsOf(bytes, done), IndexBy(k => k, Keys(KeyOfEvent, done), KeyOfEvent(e)), e);
  }

  lemma NewDescribes(kind: Kind, bytes: Event -> nat, done: seq<Event>, e: Event)
    requires !IsSkipped(kind, e) && !IsMalformed(kind, e) && KeyOfEvent(e) !in Keys(KeyOfEvent, done)
    ensures PartStep(kind, bytes, PartsOf(bytes, done), e) == if PartMayFollow(kind, bytes, done, e) then Some(PartsOf(bytes, done + [e])) else None
  {
    hide IsSkipped, KeyOfEvent, PartFor, Taken, HasRoom, MayPrecede, TotalBytes, PartStep, Keys, Table, IndexBy, IsEvidence;
    EvidenceIs(kind, e);
    PartIndex(done, KeyOfEvent(e));
    PartsGrow(done, e);
    BytesGrow(bytes, done, e);
    OthersMayPrecede(done, e);
    TakenByNew(kind, done, e);
    StepOnNew(kind, bytes, PartsOf(bytes, done), e);
  }

  /** The step on the parts described so far. */
  lemma PartStepDescribes(kind: Kind, bytes: Event -> nat, done: seq<Event>, e: Event)
    requires Admitted((d, e) => PartMayFollow(kind, bytes, d, e), done)
    ensures PartStep(kind, bytes, PartsOf(bytes, done), e) == if PartMayFollow(kind, bytes, done, e) then Some(PartsOf(bytes, done + [e])) else None
  {
    hide KeyOfEvent, HasRoom, MayPrecede, Admitted, PartsOf, Keys, AllAgree, IsEvidence;
    EvidenceIs(kind, e);
    if IsSkipped(kind, e) || IsMalformed(kind, e) { return; }
    if KeyOfEvent(e) in Keys(KeyOfEvent, done) {
      AdmittedAgree(kind, bytes, done);
      AdmittedTurns(kind, bytes, done);
      KnownDescribes(kind, bytes, done, e);
    } else {
      NewDescribes(kind, bytes, done, e);
    }
  }

  lemma AdmittedTurns(kind: Kind, bytes: Event -> nat, events: seq<Event>)
    requires Admitted((d, e) => PartMayFollow(kind, bytes, d, e), events)
    ensures forall d | d in events :: d.turn.Some?
  {
    hide HasRoom, MayPrecede, Keys, TotalBytes, IsSkipped;
    var may := (d, e) => PartMayFollow(kind, bytes, d, e);
    forall d | d in events ensures d.turn.Some? {
      var i :| 0 <= i < |events| && events[i] == d;
      assert may(events[..i], events[i]);
    }
  }

  lemma PartsAreDescribed(kind: Kind, bytes: Event -> nat, events: seq<Event>)
    ensures Projected((s, e) => PartStep(kind, bytes, s, e), SequenceOf, NO_PARTS, events)
         == if Consistent(SequenceOf, events) && Admitted((d, e) => PartMayFollow(kind, bytes, d, e), InOrder(SequenceOf, events))
            then Some(PartsOf(bytes, InOrder(SequenceOf, events))) else None
  {
    hide PartStep, PartMayFollow, Admitted, InOrder, PartsOf, Projected, Consistent;
    var step, may, described := (s, e) => PartStep(kind, bytes, s, e), (d, e) => PartMayFollow(kind, bytes, d, e), d => PartsOf(bytes, d);
    forall d, e | Admitted(may, d) ensures step(described(d), e) == if may(d, e) then Some(described(d + [e])) else None {
      PartStepDescribes(kind, bytes, d, e);
    }
    NothingYet(bytes);
    ProjectedDescribes(step, SequenceOf, may, described, events);
  }

  lemma NothingYet(bytes: Event -> nat)
    ensures PartsOf(bytes, []) == NO_PARTS
  {}

  /** The parts of a slice are known outright: where the slice is short enough and its relevant
      events, each once and in order of sequence, may follow each other, there is one part for
      each key, in order of appearance, that its events describe; otherwise it is refused. */
  lemma PartsAreKnown(kind: Kind, bytes: Event -> nat, inputs: seq<Event>, session: string, origin: Option<string>)
    ensures var relevant := Unskipped(kind, Selected(kind, session, origin, inputs));
            var events := InOrder(SequenceOf, relevant);
            && (NativeParts(kind, bytes, inputs, session, origin)
                == if |inputs| <= INPUT_MAX && Consistent(SequenceOf, relevant) && Admitted((d, e) => PartMayFollow(kind, bytes, d, e), events)
                   then Some(Table(KeyOfEvent, PartFor, events)) else None)
            && (Consistent(SequenceOf, relevant) ==> IsStrict(SequenceOf, events) && SameElements(events, relevant))
            && (forall e :: e in relevant <==> e in inputs && Counts(kind, session, origin, e))
  {
    hide PartStep, PartMayFollow, Selected, Unskipped, Table, Admitted, InOrder, Projected, IsStrict, SameElements, IsRelevant, Counts;
    var relevant := Unskipped(kind, Selected(kind, session, origin, inputs));
    RelevantElements(kind, session, origin, inputs);
    forall e ensures IsRelevant(kind, session, origin, e) <==> Counts(kind, session, origin, e) { RelevantCounts(kind, session, origin, e); }
    if Consistent(SequenceOf, relevant) { InOrderIsSorted(SequenceOf, relevant); }
    PartsAreDescribed(kind, bytes, relevant);
  }
}
