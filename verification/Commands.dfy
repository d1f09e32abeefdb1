/** At-most-once command execution under redelivery.

    A command's handler runs across an await, so repeats of the command, other commands
    and messages that fail to parse may be handled between its start and its completion. */
module Commands {
  import opened CanonicalJson

  type Id = Text
  type Hash = Text

  datatype Outcome = Acked(result: Json) | Nacked(error: Text)

  datatype Record = Pending(hash: Hash) | Settled(hash: Hash, outcome: Outcome)

  datatype Receipt = Receipt(hash: Hash, outcome: Outcome)

  datatype Reply = Report(id: Id, outcome: Outcome, duplicate: bool) | Mismatch(id: Id)

  /** Whether writing the receipt works, works only on the second attempt, or never. */
  datatype Store = Works | FailsOnce | Broken

  /** Whether replies go out, nothing goes out, or a send fails after the acknowledgement. */
  datatype Link = Up | Down | FailsAfterAck

  /** `records` and `receipts` are the runner's maps and `disk` the last receipts written;
      `completions` are the settled promises, which keep the value they first settle with;
      `running` and `waiting` are the suspended handlers and repeats.  `executed` lists the
      handlers started in this process. */
  datatype Runner = Runner(
    records: map<Id, Record>,
    receipts: map<Id, Receipt>,
    disk: map<Id, Receipt>,
    completions: map<Id, Outcome>,
    running: map<Id, Hash>,
    waiting: multiset<Id>,
    executed: seq<Id>,
    replies: seq<Reply>)

  function Started(disk: map<Id, Receipt>): Runner {
    Runner(map[], disk, disk, map[], map[], multiset{}, [], [])
  }

  function Existing(r: Runner, id: Id): (record: Record)
    requires id in r.records || id in r.receipts
  {
    if id in r.records then r.records[id] else Settled(r.receipts[id].hash, r.receipts[id].outcome)
  }

  predicate Known(r: Runner, id: Id) { id in r.records || id in r.receipts }

  function Send(r: Runner, link: Link, reply: Reply): Runner {
    if link == Down then r else r.(replies := r.replies + [reply])
  }

  function Begin(r: Runner, id: Id, hash: Hash, link: Link): Runner {
    if !Known(r, id) then
      r.(records := r.records[id := Pending(hash)], running := r.running[id := hash], executed := r.executed + [id])
    else
      var existing := Existing(r, id);
      if existing.hash != hash then Send(r, link, Mismatch(id))
      else if existing.Pending? then r.(waiting := r.waiting + multiset{id})
      else Send(r, link, Report(id, existing.outcome, existing.outcome.Acked?))
  }

  function Recorded(r: Runner, id: Id, hash: Hash, outcome: Outcome, written: bool): Runner {
    var receipts := r.receipts[id := Receipt(hash, outcome)];
    r.(records := r.records[id := Settled(hash, outcome)], receipts := receipts, disk := if written then receipts else r.disk)
  }

  function Settle(r: Runner, id: Id, outcome: Outcome): Runner {
    if id in r.completions then r else r.(completions := r.completions[id := outcome])
  }

  /** The catch block: the record becomes a refusal whatever it was. */
  function Refuse(r: Runner, id: Id, hash: Hash, error: Text, written: bool, link: Link): Runner {
    var recorded := Recorded(r, id, hash, Nacked(error), written);
    if !written then recorded
    else Send(Settle(recorded, id, Nacked(error)), link, Report(id, Nacked(error), false))
  }

  const STORE_ERROR: Text := [0x73]
  const SEND_ERROR: Text := [0x6E]

  function Complete(r: Runner, id: Id, outcome: Outcome, store: Store, link: Link): Runner
    requires id in r.running
  {
    var hash := r.running[id];
    var done := r.(running := r.running - {id});
    if outcome.Nacked? then Refuse(done, id, hash, outcome.error, store == Works, link)
    else
      var recorded := Recorded(done, id, hash, outcome, store == Works);
      if store != Works then Refuse(recorded, id, hash, STORE_ERROR, store == FailsOnce, link)
      else
        var sent := Send(Settle(recorded, id, outcome), link, Report(id, outcome, false));
        if link == Up then sent else Refuse(sent, id, hash, SEND_ERROR, true, link)
  }

  /** A repeat that waited reports what the promise settled with. */
  function Resume(r: Runner, id: Id, link: Link): Runner
    requires id in r.completions
  {
    Send(r.(waiting := r.waiting - multiset{id}), link, Report(id, r.completions[id], r.completions[id].Acked?))
  }

  /** A message with a readable envelope and an invalid payload overwrites the record of its id. */
  function RefuseUnparsed(r: Runner, id: Id, hash: Hash, error: Text, written: bool, link: Link): Runner {
    var recorded := Recorded(r, id, hash, Nacked(error), written);
    if !written then recorded else Send(recorded, link, Report(id, Nacked(error), false))
  }

  datatype Action =
    | Deliver(id: Id, payload: Json, link: Link)
    | Finish(id: Id, outcome: Outcome, store: Store, link: Link)
    | Wake(id: Id, link: Link)
    | Unparsed(id: Id, payload: Json, error: Text, written: bool, link: Link)
    | Expire(id: Id)
    | Restart

  /** How payloads are fingerprinted: a digest of the canonical print. */
  datatype Fingerprint = Fingerprint(collation: Collation, digest: Text -> Hash) {
    function Of(payload: Json): Hash { digest(Print(collation, payload)) }
  }

  function Step(f: Fingerprint, r: Runner, a: Action): Runner {
    match a
    case Deliver(id, payload, link) => Begin(r, id, f.Of(payload), link)
    case Finish(id, outcome, store, link) => if id in r.running then Complete(r, id, outcome, store, link) else r
    case Wake(id, link) => if id in r.waiting && id in r.completions then Resume(r, id, link) else r
    case Unparsed(id, payload, error, written, link) => RefuseUnparsed(r, id, f.Of(payload), error, written, link)
    case Expire(id) => r.(receipts := r.receipts - {id}, disk := r.receipts - {id})
    case Restart => Started(r.disk).(replies := r.replies)
  }

  function Run(f: Fingerprint, r: Runner, actions: seq<Action>): Runner
    decreases |actions|
  {
    if actions == [] then r else Step(f, Run(f, r, actions[..|actions| - 1]), actions[|actions| - 1])
  }

  // ---------- At most once ----------

  ghost predicate Inv(r: Runner) {
    && (forall i, j | 0 <= i < j < |r.executed| :: r.executed[i] != r.executed[j])
    && (forall id | id in r.executed :: id in r.records)
    && (forall id | id in r.running :: id in r.executed && id !in r.completions)
    && (forall id | id in r.completions :: id in r.executed)
  }

  /** Completion starts nothing and forgets nothing. */
  ghost predicate Continues(r: Runner, after: Runner, id: Id) {
    && after.executed == r.executed
    && after.records.Keys == r.records.Keys + {id}
    && r.completions.Keys <= after.completions.Keys <= r.completions.Keys + {id}
  }

  lemma RecordedContinues(r: Runner, id: Id, hash: Hash, outcome: Outcome, written: bool)
    ensures var after := Recorded(r, id, hash, outcome, written); Continues(r, after, id) && after.running == r.running
  {}

  lemma SettledAndSentContinues(r: Runner, id: Id, outcome: Outcome, link: Link)
    requires id in r.records
    ensures var after := Send(Settle(r, id, outcome), link, Report(id, outcome, false)); Continues(r, after, id) && after.running == r.running
  {}

  lemma ContinuesChain(r: Runner, middle: Runner, after: Runner, id: Id)
    requires Continues(r, middle, id) && Continues(middle, after, id)
    ensures Continues(r, after, id)
  {}

  lemma RefuseContinues(r: Runner, id: Id, hash: Hash, error: Text, written: bool, link: Link)
    ensures var after := Refuse(r, id, hash, error, written, link); Continues(r, after, id) && after.running == r.running
  {
    var recorded := Recorded(r, id, hash, Nacked(error), written);
    RecordedContinues(r, id, hash, Nacked(error), written);
    SettledAndSentContinues(recorded, id, Nacked(error), link);
    ContinuesChain(r, recorded, Refuse(r, id, hash, error, written, link), id);
  }

  lemma CompleteContinues(r: Runner, id: Id, outcome: Outcome, store: Store, link: Link)
    requires id in r.running
    ensures Continues(r, Complete(r, id, outcome, store, link), id)
    ensures Complete(r, id, outcome, store, link).running == r.running - {id}
  {
    hide Refuse, Recorded, Settle;
    var hash, done := r.running[id], r.(running := r.running - {id});
    hide Refuse, Recorded, Settle, Send;
    if outcome.Nacked? {
      RefuseContinues(done, id, hash, outcome.error, store == Works, link);
    } else {
      var recorded := Recorded(done, id, hash, outcome, store == Works);
      var sent := Send(Settle(recorded, id, outcome), link, Report(id, outcome, false));
      RecordedContinues(done, id, hash, outcome, store == Works);
      SettledAndSentContinues(recorded, id, outcome, link);
      ContinuesChain(done, recorded, sent, id);
      RefuseContinues(recorded, id, hash, STORE_ERROR, store == FailsOnce, link);
      RefuseContinues(sent, id, hash, SEND_ERROR, true, link);
      ContinuesChain(done, recorded, Refuse(recorded, id, hash, STORE_ERROR, store == FailsOnce, link), id);
      ContinuesChain(done, sent, Refuse(sent, id, hash, SEND_ERROR, true, link), id);
    }
  }

  lemma BeginKeepsInv(r: Runner, id: Id, hash: Hash, link: Link)
    requires Inv(r)
    ensures Inv(Begin(r, id, hash, link))
  {
    if Known(r, id) {
      KnownBeginRunsNothing(r, id, hash, link);
    } else {
      var after := Begin(r, id, hash, link);
      assert forall i | 0 <= i < |r.executed| :: r.executed[i] in r.records;
      assert forall other | other in after.executed :: other in r.executed || other == id;
    }
  }

  lemma KnownBeginRunsNothing(r: Runner, id: Id, hash: Hash, link: Link)
    requires Known(r, id)
    ensures var after := Begin(r, id, hash, link);
            && after.executed == r.executed && after.records == r.records && after.receipts == r.receipts && after.disk == r.disk
            && after.running == r.running && after.completions == r.completions
  {
    var existing := Existing(r, id);
    hide Known, Existing, Send;
    SendRunsNothing(r, link, Mismatch(id));
    if existing.Settled? { SendRunsNothing(r, link, Report(id, existing.outcome, existing.outcome.Acked?)); }
  }

  lemma SendRunsNothing(r: Runner, link: Link, reply: Reply)
    ensures var after := Send(r, link, reply);
            && after.executed == r.executed && after.records == r.records && after.receipts == r.receipts && after.disk == r.disk
            && after.running == r.running && after.completions == r.completions
  {}

  lemma CompleteKeepsInv(r: Runner, id: Id, outcome: Outcome, store: Store, link: Link)
    requires Inv(r) && id in r.running
    ensures Inv(Complete(r, id, outcome, store, link))
  {
    CompleteContinues(r, id, outcome, store, link);
    hide Complete;
  }

  lemma StepKeepsInv(f: Fingerprint, r: Runner, a: Action)
    requires Inv(r)
    ensures Inv(Step(f, r, a))
  {
    hide Begin, Complete, RefuseUnparsed, Send;
    match a
    case Deliver(id, payload, link) => BeginKeepsInv(r, id, f.Of(payload), link);
    case Finish(id, outcome, store, link) => if id in r.running { CompleteKeepsInv(r, id, outcome, store, link); }
    case Wake(id, link) =>
      if id in r.waiting && id in r.completions {
        SendRunsNothing(r.(waiting := r.waiting - multiset{id}), link, Report(id, r.completions[id], r.completions[id].Acked?));
      }
    case Unparsed(id, payload, error, written, link) => UnparsedKeepsInv(r, id, f.Of(payload), error, written, link);
    case Expire(_) =>
    case Restart =>
  }

  lemma UnparsedKeepsInv(r: Runner, id: Id, hash: Hash, error: Text, written: bool, link: Link)
    requires Inv(r)
    ensures Inv(RefuseUnparsed(r, id, hash, error, written, link))
  {
    hide Send;
    SendRunsNothing(Recorded(r, id, hash, Nacked(error), written), link, Report(id, Nacked(error), false));
  }

  lemma {:induction false} RunKeepsInv(f: Fingerprint, disk: map<Id, Receipt>, actions: seq<Action>)
    ensures Inv(Run(f, Started(disk), actions))
    decreases |actions|
  {
    if actions != [] {
      RunKeepsInv(f, disk, actions[..|actions| - 1]);
      StepKeepsInv(f, Run(f, Started(disk), actions[..|actions| - 1]), actions[|actions| - 1]);
    }
  }

  /** In every interleaving no handler is started twice in one process, and none is ever
      started for an id that has a record or an unexpired receipt, whatever its payload. */
  lemma HandlersRunAtMostOnce(f: Fingerprint, disk: map<Id, Receipt>, actions: seq<Action>, id: Id, payload: Json, link: Link)
    ensures var r := Run(f, Started(disk), actions);
            && multiset(r.executed)[id] <= 1
            && (Known(r, id) ==> Step(f, r, Deliver(id, payload, link)).executed == r.executed)
            && (id in r.executed ==> Known(r, id))
  {
    RunKeepsInv(f, disk, actions);
    var r := Run(f, Started(disk), actions);
    hide Run, Begin;
    if id in r.executed { CountsOnce(r.executed, id); }
    if Known(r, id) { KnownBeginRunsNothing(r, id, f.Of(payload), link); }
  }

  lemma {:induction false} CountsOnce(ids: seq<Id>, id: Id)
    requires id in ids && forall i, j | 0 <= i < j < |ids| :: ids[i] != ids[j]
    ensures multiset(ids)[id] == 1
  {
    assert ids == [ids[0]] + ids[1..];
    if ids[0] == id {
      assert id !in ids[1..];
    } else {
      CountsOnce(ids[1..], id);
    }
  }

  // ---------- What repeats are told ----------

  /** The action leaves a settled command of this id alone: its acknowledgement could be
      written and sent, no unparsable message names it, and its receipt is retained. */
  predicate Steady(id: Id, a: Action) {
    match a
    case Deliver(_, _, _) => true
    case Finish(other, outcome, store, link) => other == id && outcome.Acked? ==> store == Works && link == Up
    case Wake(_, _) => true
    case Unparsed(other, _, _, _, _) => other != id
    case Expire(other) => other != id
    case Restart => false
  }

  ghost predicate Agreed(r: Runner, id: Id) {
    && (id in r.records && id in r.receipts && id !in r.running ==> r.records[id] == Settled(r.receipts[id].hash, r.receipts[id].outcome))
    && (id in r.running ==> id in r.records && r.records[id] == Pending(r.running[id]) && id !in r.receipts && id !in r.completions)
    && (id in r.completions ==> id in r.records && r.records[id].Settled? && r.records[id].outcome == r.completions[id])
    && (id in r.records && r.records[id].Pending? ==> id in r.running)
    && (forall reply | reply in r.replies && reply.Report? && reply.id == id ::
          Known(r, id) && Existing(r, id).Settled? && Existing(r, id).outcome == reply.outcome)
  }

  function At<T>(m: map<Id, T>, id: Id): set<T> { if id in m then {m[id]} else {} }

  predicate IsReportOn(reply: Reply, id: Id) { reply.Report? && reply.id == id }

  /** The two states tell the same story about the id. */
  ghost predicate SameFor(r: Runner, after: Runner, id: Id) {
    && At(r.records, id) == At(after.records, id)
    && At(r.receipts, id) == At(after.receipts, id)
    && At(r.completions, id) == At(after.completions, id)
    && At(r.running, id) == At(after.running, id)
    && (forall reply | IsReportOn(reply, id) :: reply in after.replies ==> reply in r.replies)
  }

  lemma SameAgrees(r: Runner, after: Runner, id: Id)
    requires Agreed(r, id) && SameFor(r, after, id)
    ensures Agreed(after, id)
  {
  }

  lemma SameChain(r: Runner, middle: Runner, after: Runner, id: Id)
    requires SameFor(r, middle, id) && SameFor(middle, after, id)
    ensures SameFor(r, after, id)
  {}

  lemma SendSame(r: Runner, link: Link, reply: Reply, id: Id)
    requires !IsReportOn(reply, id)
    ensures SameFor(r, Send(r, link, reply), id)
  {}

  lemma RecordedSame(r: Runner, other: Id, hash: Hash, outcome: Outcome, written: bool, id: Id)
    requires other != id
    ensures SameFor(r, Recorded(r, other, hash, outcome, written), id)
  {}

  lemma SettleSame(r: Runner, other: Id, outcome: Outcome, id: Id)
    requires other != id
    ensures SameFor(r, Settle(r, other, outcome), id)
  {}

  lemma SettledAndSentSame(r: Runner, other: Id, outcome: Outcome, link: Link, id: Id)
    requires other != id
    ensures SameFor(r, Send(Settle(r, other, outcome), link, Report(other, outcome, false)), id)
  {
    SettleSame(r, other, outcome, id);
    SendSame(Settle(r, other, outcome), link, Report(other, outcome, false), id);
    SameChain(r, Settle(r, other, outcome), Send(Settle(r, other, outcome), link, Report(other, outcome, false)), id);
  }

  lemma RefuseSame(r: Runner, other: Id, hash: Hash, error: Text, written: bool, link: Link, id: Id)
    requires other != id
    ensures SameFor(r, Refuse(r, other, hash, error, written, link), id)
  {
    var recorded := Recorded(r, other, hash, Nacked(error), written);
    RecordedSame(r, other, hash, Nacked(error), written, id);
    SettledAndSentSame(recorded, other, Nacked(error), link, id);
    SameChain(r, recorded, Refuse(r, other, hash, error, written, link), id);
  }

  lemma OthersFinish(r: Runner, other: Id, outcome: Outcome, store: Store, link: Link, id: Id)
    requires other in r.running && other != id
    ensures SameFor(r, Complete(r, other, outcome, store, link), id)
  {
    hide Refuse, Recorded, Settle;
    var hash, done := r.running[other], r.(running := r.running - {other});
    if outcome.Nacked? {
      RefuseSame(done, other, hash, outcome.error, store == Works, link, id);
    } else {
      var recorded := Recorded(done, other, hash, outcome, store == Works);
      RecordedSame(done, other, hash, outcome, store == Works, id);
      if store != Works {
        RefuseSame(recorded, other, hash, STORE_ERROR, store == FailsOnce, link, id);
        SameChain(done, recorded, Complete(r, other, outcome, store, link), id);
      } else {
        var sent := Send(Settle(recorded, other, outcome), link, Report(other, outcome, false));
        SettledAndSentSame(recorded, other, outcome, link, id);
        SameChain(done, recorded, sent, id);
        RefuseSame(sent, other, hash, SEND_ERROR, true, link, id);
        SameChain(done, sent, Complete(r, other, outcome, store, link), id);
      }
    }
    SameChain(r, done, Complete(r, other, outcome, store, link), id);
  }

  /** A step about another id leaves this id's story alone. */
  lemma OtherStepSame(f: Fingerprint, r: Runner, a: Action, id: Id)
    requires !a.Restart? && a.id != id
    ensures SameFor(r, Step(f, r, a), id)
  {
    hide Begin, Complete, RefuseUnparsed, Send;
    match a
    case Deliver(other, payload, link) => BeginSame(r, other, f.Of(payload), link, id);
    case Finish(other, outcome, store, link) => if other in r.running { OthersFinish(r, other, outcome, store, link, id); }
    case Wake(other, link) =>
      if other in r.waiting && other in r.completions {
        var woken := r.(waiting := r.waiting - multiset{other});
        SendSame(woken, link, Report(other, r.completions[other], r.completions[other].Acked?), id);
        SameChain(r, woken, Step(f, r, a), id);
      }
    case Unparsed(other, payload, error, written, link) => UnparsedSame(r, other, f.Of(payload), error, written, link, id);
    case Expire(_) =>
  }

  lemma UnparsedSame(r: Runner, other: Id, hash: Hash, error: Text, written: bool, link: Link, id: Id)
    requires other != id
    ensures SameFor(r, RefuseUnparsed(r, other, hash, error, written, link), id)
  {
    var recorded := Recorded(r, other, hash, Nacked(error), written);
    RecordedSame(r, other, hash, Nacked(error), written, id);
    SendSame(recorded, link, Report(other, Nacked(error), false), id);
    SameChain(r, recorded, RefuseUnparsed(r, other, hash, error, written, link), id);
  }

  lemma BeginSame(r: Runner, other: Id, hash: Hash, link: Link, id: Id)
    requires other != id
    ensures SameFor(r, Begin(r, other, hash, link), id)
  {
    hide Existing, Send;
    SendSame(r, link, Mismatch(other), id);
    if Known(r, other) && Existing(r, other).Settled? { SendSame(r, link, Report(other, Existing(r, other).outcome, Existing(r, other).outcome.Acked?), id); }
  }

  lemma CompleteAgrees(r: Runner, id: Id, outcome: Outcome, store: Store, link: Link)
    requires Inv(r) && Agreed(r, id) && id in r.running && (outcome.Acked? ==> store == Works && link == Up)
    ensures Agreed(Complete(r, id, outcome, store, link), id)
  {}

  lemma SteadyStepAgrees(f: Fingerprint, r: Runner, a: Action, id: Id)
    requires Inv(r) && Agreed(r, id) && Steady(id, a)
    ensures Agreed(Step(f, r, a), id)
  {
    hide Begin, Complete, Existing, Known;
    if a.id != id {
      OtherStepSame(f, r, a, id);
      SameAgrees(r, Step(f, r, a), id);
    } else {
      match a
      case Deliver(_, payload, link) => BeginAgrees(r, id, f.Of(payload), link);
      case Finish(_, outcome, store, link) => if id in r.running { CompleteAgrees(r, id, outcome, store, link); }
      case Wake(_, link) => WakeAgrees(f, r, link, id);
    }
  }

  lemma SendAgrees(r: Runner, link: Link, reply: Reply, id: Id)
    requires Agreed(r, id)
    requires IsReportOn(reply, id) ==> Known(r, id) && Existing(r, id).Settled? && Existing(r, id).outcome == reply.outcome
    ensures Agreed(Send(r, link, reply), id)
  {}

  lemma BeginAgrees(r: Runner, id: Id, hash: Hash, link: Link)
    requires Inv(r) && Agreed(r, id)
    ensures Agreed(Begin(r, id, hash, link), id)
  {
    hide Inv, Existing, Send;
    if Known(r, id) {
      SendAgrees(r, link, Mismatch(id), id);
      if Existing(r, id).Settled? { SendAgrees(r, link, Report(id, Existing(r, id).outcome, Existing(r, id).outcome.Acked?), id); }
    }
  }

  lemma WakeAgrees(f: Fingerprint, r: Runner, link: Link, id: Id)
    requires Agreed(r, id)
    ensures Agreed(Step(f, r, Wake(id, link)), id)
  {
    if id in r.completions {
      SendAgrees(r.(waiting := r.waiting - multiset{id}), link, Report(id, r.completions[id], r.completions[id].Acked?), id);
    }
  }

  lemma {:induction false} SteadyRunAgrees(f: Fingerprint, disk: map<Id, Receipt>, actions: seq<Action>, id: Id)
    requires forall a | a in actions :: Steady(id, a)
    ensures Agreed(Run(f, Started(disk), actions), id)
    decreases |actions|
  {
    if actions != [] {
      SteadyRunAgrees(f, disk, actions[..|actions| - 1], id);
      RunKeepsInv(f, disk, actions[..|actions| - 1]);
      SteadyStepAgrees(f, Run(f, Started(disk), actions[..|actions| - 1]), actions[|actions| - 1], id);
    }
  }

  /** On steady runs every report about a command carries one and the same outcome, and
      a repeat with an equal payload, now or after waiting, is told that outcome. */
  lemma ReportsAgree(f: Fingerprint, disk: map<Id, Receipt>, actions: seq<Action>, id: Id, x: Reply, y: Reply)
    requires forall a | a in actions :: Steady(id, a)
    requires x.Report? && y.Report? && x.id == id == y.id
    ensures var r := Run(f, Started(disk), actions);
            && (x in r.replies && y in r.replies ==> x.outcome == y.outcome)
            && (x in r.replies ==> Known(r, id) && Existing(r, id).Settled? && Existing(r, id).outcome == x.outcome)
            && (x in r.replies && id in r.completions ==> r.completions[id] == x.outcome)
  {
    SteadyRunAgrees(f, disk, actions, id);
  }

  /** An acknowledged outcome is what the record says after completion exactly when it could
      be written and every reply could be sent; a failed send leaves a refusal on record
      although the repeats that waited are told of success. */
  lemma AcknowledgementIsRecorded(r: Runner, id: Id, result: Json, store: Store, link: Link)
    requires id in r.running && id !in r.completions
    ensures var after := Complete(r, id, Acked(result), store, link);
            && id in after.records && after.records[id].Settled?
            && (after.records[id].outcome == Acked(result) <==> store == Works && link == Up)
            && (store == Works ==> id in after.completions && after.completions[id] == Acked(result))
  {
    var after := Complete(r, id, Acked(result), store, link);
    assert id in after.records;
  }

  /** A handler that is still running has no acknowledgement on record. */
  predicate RunningUnacknowledged(r: Runner, id: Id) {
    id in r.running ==> id in r.records && (r.records[id].Settled? ==> r.records[id].outcome.Nacked?)
  }

  lemma StepKeepsUnacknowledged(f: Fingerprint, r: Runner, a: Action, id: Id)
    requires RunningUnacknowledged(r, id)
    ensures RunningUnacknowledged(Step(f, r, a), id)
  {
    hide Complete, PrintMembers, Print, Begin, Refuse, ShortEscape, Insert;
    if a.Restart? { return; }
    hide Begin, Complete;
    if a.id != id {
      OtherStepSame(f, r, a, id);
    } else {
      match a
      case Deliver(_, payload, link) =>
        if Known(r, id) { KnownBeginRunsNothing(r, id, f.Of(payload), link); } else { NewBegin(r, id, f.Of(payload), link); }
      case Finish(_, outcome, store, link) => if id in r.running { CompleteContinues(r, id, outcome, store, link); }
      case _ =>
    }
  }

  lemma NewBegin(r: Runner, id: Id, hash: Hash, link: Link)
    requires !Known(r, id)
    ensures var after := Begin(r, id, hash, link);
            && id in after.records && after.records[id] == Pending(hash) && id in after.running && after.running[id] == hash
            && after.receipts == r.receipts
  {}

  lemma {:induction false} RunKeepsUnacknowledged(f: Fingerprint, disk: map<Id, Receipt>, actions: seq<Action>, id: Id)
    ensures RunningUnacknowledged(Run(f, Started(disk), actions), id)
    decreases |actions|
  {
    if actions != [] {
      RunKeepsUnacknowledged(f, disk, actions[..|actions| - 1], id);
      StepKeepsUnacknowledged(f, Run(f, Started(disk), actions[..|actions| - 1]), actions[|actions| - 1], id);
    }
  }

  /** In every run of a process, an acknowledgement on record is lost to an unparsable message
      with its id, and to nothing else. */
  lemma AcknowledgementStays(f: Fingerprint, disk: map<Id, Receipt>, actions: seq<Action>, id: Id, a: Action)
    requires var r := Run(f, Started(disk), actions);
             id in r.records && r.records[id].Settled? && r.records[id].outcome.Acked?
    requires !a.Restart?
    ensures var r := Run(f, Started(disk), actions);
            var after := Step(f, r, a);
            && id in after.records
            && (after.records[id] == r.records[id] <==> !(a.Unparsed? && a.id == id))
  {
    RunKeepsUnacknowledged(f, disk, actions, id);
    hide Begin, Complete, Run;
    var r := Run(f, Started(disk), actions);
    if a.id != id {
      OtherStepSame(f, r, a, id);
    } else if a.Deliver? {
      KnownBeginRunsNothing(r, id, f.Of(a.payload), a.link);
    }
  }

  /** Two payloads count as the same command exactly when their values are equal, given a
      collision-free digest and a collation that separates the first payload's keys. */
  lemma SamePayload(f: Fingerprint, a: Json, b: Json)
    requires WellFormed(a) && WellFormed(b) && Separated(f.collation, a)
    requires forall s, t :: f.digest(s) == f.digest(t) ==> s == t
    ensures f.Of(a) == f.Of(b) <==> Meaning(a) == Meaning(b)
  {
    PrintDecidesEquality(f.collation, a);
  }

  /** Everything known of the id carries that hash. */
  ghost predicate HashIs(r: Runner, id: Id, hash: Hash) {
    && Known(r, id)
    && (id in r.records ==> r.records[id].hash == hash)
    && (id in r.receipts ==> r.receipts[id].hash == hash)
    && (id in r.running ==> r.running[id] == hash && id in r.records)
  }

  /** No unparsable message names the id, and what is known of it is not dropped. */
  predicate KeepsHash(id: Id, a: Action, recorded: bool) {
    && !a.Restart? && (a.Unparsed? ==> a.id != id) && (a.Expire? && a.id == id ==> recorded)
  }

  lemma RefuseKeepsHash(r: Runner, id: Id, hash: Hash, error: Text, written: bool, link: Link)
    ensures var after := Refuse(r, id, hash, error, written, link);
            && id in after.records && after.records[id].hash == hash && id in after.receipts && after.receipts[id].hash == hash
  {}

  lemma CompleteKeepsHash(r: Runner, id: Id, outcome: Outcome, store: Store, link: Link)
    requires id in r.running
    ensures var after := Complete(r, id, outcome, store, link);
            && id in after.records && after.records[id].hash == r.running[id]
            && id in after.receipts && after.receipts[id].hash == r.running[id] && id !in after.running
  {
    CompleteContinues(r, id, outcome, store, link);
    var hash, done := r.running[id], r.(running := r.running - {id});
    if outcome.Nacked? {
      RefuseKeepsHash(done, id, hash, outcome.error, store == Works, link);
    } else {
      var recorded := Recorded(done, id, hash, outcome, store == Works);
      RefuseKeepsHash(recorded, id, hash, STORE_ERROR, store == FailsOnce, link);
      RefuseKeepsHash(Send(Settle(recorded, id, outcome), link, Report(id, outcome, false)), id, hash, SEND_ERROR, true, link);
      hide Refuse;
    }
  }

  lemma StepKeepsHash(f: Fingerprint, r: Runner, a: Action, id: Id, hash: Hash)
    requires HashIs(r, id, hash) && KeepsHash(id, a, id in r.records)
    ensures HashIs(Step(f, r, a), id, hash) && (id in r.records ==> id in Step(f, r, a).records)
  {
    hide Begin, Complete, Existing, PrintMembers, Print, Refuse, Recorded, ShortEscape;
    if a.id != id {
      OtherStepSame(f, r, a, id);
    } else {
      match a
      case Deliver(_, payload, link) =>
        KnownBeginRunsNothing(r, id, f.Of(payload), link);
      case Finish(_, outcome, store, link) => if id in r.running { CompleteKeepsHash(r, id, outcome, store, link); }
      case Wake(_, link) =>
      case Expire(_) =>
    }
  }

  lemma {:induction false} RunKeepsHash(f: Fingerprint, r: Runner, more: seq<Action>, id: Id, hash: Hash)
    requires HashIs(r, id, hash) && forall a | a in more :: KeepsHash(id, a, id in r.records)
    ensures HashIs(Run(f, r, more), id, hash) && (id in r.records ==> id in Run(f, r, more).records)
    decreases |more|
  {
    hide HashIs, Step;
    if more != [] {
      RunKeepsHash(f, r, more[..|more| - 1], id, hash);
      assert KeepsHash(id, more[|more| - 1], id in r.records);
      StepKeepsHash(f, Run(f, r, more[..|more| - 1]), more[|more| - 1], id, hash);
    }
  }

  /** After a command was begun, the same id with another payload is never executed in that
      process: it is told of the mismatch, if the link is up, and changes nothing else. */
  lemma DifferentPayloadNeverRuns(
    f: Fingerprint, disk: map<Id, Receipt>, actions: seq<Action>, more: seq<Action>, id: Id, begun: Json, other: Json, up: Link, link: Link)
    requires !Known(Run(f, Started(disk), actions), id) && f.Of(other) != f.Of(begun)
    requires forall a | a in more :: KeepsHash(id, a, true)
    ensures var r := Run(f, Step(f, Run(f, Started(disk), actions), Deliver(id, begun, up)), more);
            Step(f, r, Deliver(id, other, link)) == r.(replies := r.replies + Told(link, Mismatch(id)))
  {
    var first := Run(f, Started(disk), actions);
    NewBegin(first, id, f.Of(begun), up);
    hide Begin;
    RunKeepsHash(f, Step(f, first, Deliver(id, begun, up)), more, id, f.Of(begun));
    MismatchReported(f, Run(f, Step(f, first, Deliver(id, begun, up)), more), id, f.Of(begun), other, link);
  }

  /** The same for a receipt kept from an earlier process, until it expires. */
  lemma ReceiptsRefuseOtherPayloads(f: Fingerprint, disk: map<Id, Receipt>, more: seq<Action>, id: Id, other: Json, link: Link)
    requires id in disk && f.Of(other) != disk[id].hash && forall a | a in more :: KeepsHash(id, a, false)
    ensures var r := Run(f, Started(disk), more); Step(f, r, Deliver(id, other, link)) == r.(replies := r.replies + Told(link, Mismatch(id)))
  {
    RunKeepsHash(f, Started(disk), more, id, disk[id].hash);
    MismatchReported(f, Run(f, Started(disk), more), id, disk[id].hash, other, link);
  }

  lemma MismatchReported(f: Fingerprint, r: Runner, id: Id, hash: Hash, other: Json, link: Link)
    requires HashIs(r, id, hash) && f.Of(other) != hash
    ensures Step(f, r, Deliver(id, other, link)) == r.(replies := r.replies + Told(link, Mismatch(id)))
  {
    assert r.replies + [] == r.replies;
  }

  // ---------- Who is answered ----------

  /** The replies that leave over a link on which nothing else was sent before. */
  function Told(link: Link, reply: Reply): seq<Reply> { if link == Down then [] else [reply] }

  /** What is known of the id is this outcome, for this payload. */
  predicate HasOutcome(r: Runner, id: Id, hash: Hash, outcome: Outcome) {
    if id in r.records then r.records[id] == Settled(hash, outcome) else id in r.receipts && r.receipts[id] == Receipt(hash, outcome)
  }

  predicate IsPending(r: Runner, id: Id, hash: Hash) { id in r.records && r.records[id] == Pending(hash) }

  /** A delivery is answered according to what is known of its id: by one report of the
      recorded outcome, by one more waiter, by one refusal, or by starting the handler; and
      nothing else changes. */
  lemma DeliveriesAreAnswered(f: Fingerprint, r: Runner, id: Id, payload: Json, link: Link, outcome: Outcome)
    ensures var after, hash := Step(f, r, Deliver(id, payload, link)), f.Of(payload);
            && (HasOutcome(r, id, hash, outcome) ==> after == r.(replies := r.replies + Told(link, Report(id, outcome, outcome.Acked?))))
            && (IsPending(r, id, hash) ==> after == r.(waiting := r.waiting + multiset{id}))
            && (id !in r.records && id !in r.receipts ==>
                  after == r.(records := r.records[id := Pending(hash)], running := r.running[id := hash], executed := r.executed + [id]))
  {
    assert r.replies + [] == r.replies;
  }

  /** A wake reports what the command's promise settled with, to one waiter. */
  lemma WakesAreAnswered(f: Fingerprint, r: Runner, id: Id, link: Link)
    requires id in r.waiting && id in r.completions
    ensures var after := Step(f, r, Wake(id, link));
            && after == r.(waiting := r.waiting - multiset{id}, replies := r.replies + Told(link, Report(id, r.completions[id], r.completions[id].Acked?)))
            && after.waiting[id] == r.waiting[id] - 1
  {
    assert r.replies + [] == r.replies;
  }

  /** The state after a command ended with this outcome on record and this one promised. */
  function Ended(r: Runner, id: Id, hash: Hash, final: Outcome, stored: bool, told: Outcome, replies: seq<Reply>): Runner {
    var receipts := r.receipts[id := Receipt(hash, final)];
    Runner(r.records[id := Settled(hash, final)], receipts, if stored then receipts else r.disk,
           if stored then r.completions[id := told] else r.completions, r.running - {id}, r.waiting, r.executed, r.replies + replies)
  }

  /** What a completion tells its sender, and what the record then says: the outcome where it
      could be written and sent, else a refusal, where that could be; the waiters' promise
      keeps the outcome that was first written. */
  lemma CompletionsAreAnswered(f: Fingerprint, r: Runner, id: Id, outcome: Outcome, store: Store, link: Link)
    requires id in r.running && id !in r.completions
    ensures var after, hash := Step(f, r, Finish(id, outcome, store, link)), r.running[id];
            after == if outcome.Nacked? then
                       Ended(r, id, hash, outcome, store == Works, outcome, if store == Works then Told(link, Report(id, outcome, false)) else [])
                     else if store == Broken then Ended(r, id, hash, Nacked(STORE_ERROR), false, outcome, [])
                     else if store == FailsOnce then
                       Ended(r, id, hash, Nacked(STORE_ERROR), true, Nacked(STORE_ERROR), Told(link, Report(id, Nacked(STORE_ERROR), false)))
                     else if link == Up then Ended(r, id, hash, outcome, true, outcome, [Report(id, outcome, false)])
                     else
                       Ended(r, id, hash, Nacked(SEND_ERROR), true, outcome,
                             if link == Down then [] else [Report(id, outcome, false), Report(id, Nacked(SEND_ERROR), false)])
  {
    hide Refuse, Recorded, Send, Settle, Told, Ended;
    var hash, done := r.running[id], r.(running := r.running - {id});
    if outcome.Nacked? {
      NackEnds(r, id, outcome.error, store == Works, link);
    } else if store != Works {
      UnwrittenEnds(r, id, outcome, store == FailsOnce, link);
    } else if link == Up {
      AckEnds(r, id, outcome);
    } else {
      UnsentEnds(r, id, outcome, link);
    }
  }

  lemma NackEnds(r: Runner, id: Id, error: Text, written: bool, link: Link)
    requires id in r.running && id !in r.completions
    ensures Refuse(r.(running := r.running - {id}), id, r.running[id], error, written, link)
         == Ended(r, id, r.running[id], Nacked(error), written, Nacked(error), if written then Told(link, Report(id, Nacked(error), false)) else [])
  {
    hide Refuse, Told;
    RefusalEnds(r.(running := r.running - {id}), id, r.running[id], error, written, link);
  }

  lemma UnwrittenEnds(r: Runner, id: Id, outcome: Outcome, written: bool, link: Link)
    requires id in r.running && id !in r.completions
    ensures Refuse(Recorded(r.(running := r.running - {id}), id, r.running[id], outcome, false), id, r.running[id], STORE_ERROR, written, link)
         == Ended(r, id, r.running[id], Nacked(STORE_ERROR), written, if written then Nacked(STORE_ERROR) else outcome,
                  if written then Told(link, Report(id, Nacked(STORE_ERROR), false)) else [])
  {
    hide Refuse, Told;
    var hash := r.running[id];
    var recorded := Recorded(r.(running := r.running - {id}), id, hash, outcome, false);
    RefusalEnds(recorded, id, hash, STORE_ERROR, written, link);
    assert recorded.records[id := Settled(hash, Nacked(STORE_ERROR))] == r.records[id := Settled(hash, Nacked(STORE_ERROR))];
    assert recorded.receipts[id := Receipt(hash, Nacked(STORE_ERROR))] == r.receipts[id := Receipt(hash, Nacked(STORE_ERROR))];
  }

  lemma AckEnds(r: Runner, id: Id, outcome: Outcome)
    requires id in r.running && id !in r.completions
    ensures Send(Settle(Recorded(r.(running := r.running - {id}), id, r.running[id], outcome, true), id, outcome), Up, Report(id, outcome, false))
         == Ended(r, id, r.running[id], outcome, true, outcome, [Report(id, outcome, false)])
  {}

  lemma UnsentEnds(r: Runner, id: Id, outcome: Outcome, link: Link)
    requires id in r.running && id !in r.completions && link != Up
    ensures var recorded := Recorded(r.(running := r.running - {id}), id, r.running[id], outcome, true);
            Refuse(Send(Settle(recorded, id, outcome), link, Report(id, outcome, false)), id, r.running[id], SEND_ERROR, true, link)
            == Ended(r, id, r.running[id], Nacked(SEND_ERROR), true, outcome,
                     if link == Down then [] else [Report(id, outcome, false), Report(id, Nacked(SEND_ERROR), false)])
  {
    hide Refuse;
    var hash := r.running[id];
    var recorded := Recorded(r.(running := r.running - {id}), id, hash, outcome, true);
    RefusalEnds(Send(Settle(recorded, id, outcome), link, Report(id, outcome, false)), id, hash, SEND_ERROR, true, link);
    assert recorded.records[id := Settled(hash, Nacked(SEND_ERROR))] == r.records[id := Settled(hash, Nacked(SEND_ERROR))];
    assert recorded.receipts[id := Receipt(hash, Nacked(SEND_ERROR))] == r.receipts[id := Receipt(hash, Nacked(SEND_ERROR))];
    assert r.replies + [Report(id, outcome, false)] + [Report(id, Nacked(SEND_ERROR), false)]
        == r.replies + [Report(id, outcome, false), Report(id, Nacked(SEND_ERROR), false)];
    assert r.replies + [] == r.replies;
  }

  lemma RefusalEnds(r: Runner, id: Id, hash: Hash, error: Text, written: bool, link: Link)
    ensures var receipts := r.receipts[id := Receipt(hash, Nacked(error))];
            Refuse(r, id, hash, error, written, link)
            == Runner(r.records[id := Settled(hash, Nacked(error))], receipts, if written then receipts else r.disk,
                      if written && id !in r.completions then r.completions[id := Nacked(error)] else r.completions,
                      r.running, r.waiting, r.executed,
                      r.replies + if written then Told(link, Report(id, Nacked(error), false)) else [])
  {
    assert r.replies + [] == r.replies;
  }

  /** A message that names an id but does not parse is recorded and answered as a refusal. */
  lemma UnparsedAreAnswered(f: Fingerprint, r: Runner, id: Id, payload: Json, error: Text, written: bool, link: Link)
    ensures var after, hash := Step(f, r, Unparsed(id, payload, error, written, link)), f.Of(payload);
            && after.records == r.records[id := Settled(hash, Nacked(error))] && after.receipts == r.receipts[id := Receipt(hash, Nacked(error))]
            && after.disk == (if written then after.receipts else r.disk)
            && after.replies == r.replies + (if written then Told(link, Report(id, Nacked(error), false)) else [])
            && after.running == r.running && after.waiting == r.waiting && after.completions == r.completions && after.executed == r.executed
  {
    assert r.replies + [] == r.replies;
  }

  /** The outcome of the id is on record, where the record is missing on file, and on file. */
  predicate Remembers(r: Runner, id: Id, hash: Hash, outcome: Outcome) {
    && HasOutcome(r, id, hash, outcome) && id !in r.running
    && id in r.receipts && r.receipts[id] == Receipt(hash, outcome)
    && id in r.disk && r.disk[id] == Receipt(hash, outcome)
  }

  /** No unparsable message names the id, and its receipt does not expire. */
  predicate Spares(id: Id, a: Action) { a.Unparsed? || a.Expire? ==> a.id != id }

  lemma StepRemembers(f: Fingerprint, r: Runner, a: Action, id: Id, hash: Hash, outcome: Outcome)
    requires Inv(r) && Remembers(r, id, hash, outcome) && Spares(id, a)
    ensures Remembers(Step(f, r, a), id, hash, outcome)
  {
    hide Begin, Complete, Resume, RefuseUnparsed;
    match a
    case Deliver(other, payload, link) =>
      DeliveriesAreAnswered(f, r, other, payload, link, outcome);
      if Known(r, other) { KnownBeginRunsNothing(r, other, f.Of(payload), link); }
    case Finish(other, result, store, link) =>
      if other in r.running { CompletionsAreAnswered(f, r, other, result, store, link); }
    case Wake(other, link) =>
      if other in r.waiting && other in r.completions { WakesAreAnswered(f, r, other, link); }
    case Unparsed(other, payload, error, written, link) => UnparsedAreAnswered(f, r, other, payload, error, written, link);
    case Expire(_) =>
    case Restart =>
  }

  lemma {:induction false} RunRemembers(f: Fingerprint, r: Runner, more: seq<Action>, id: Id, hash: Hash, outcome: Outcome)
    requires Inv(r) && Remembers(r, id, hash, outcome) && forall a | a in more :: Spares(id, a)
    ensures Inv(Run(f, r, more)) && Remembers(Run(f, r, more), id, hash, outcome)
    decreases |more|
  {
    hide Inv, Step, Remembers;
    if more != [] {
      var n := |more| - 1;
      RunRemembers(f, r, more[..n], id, hash, outcome);
      StepKeepsInv(f, Run(f, r, more[..n]), more[n]);
      StepRemembers(f, Run(f, r, more[..n]), more[n], id, hash, outcome);
    }
  }

  /** A command whose outcome was written and, if it succeeded, acknowledged is from then on
      answered with that outcome whenever it is delivered again: after whatever else happened
      and through restarts, until its receipt expires or an unparsable message names its id. */
  lemma SettledCommandsAreReported(
    f: Fingerprint, disk: map<Id, Receipt>, actions: seq<Action>, id: Id, payload: Json, outcome: Outcome, link: Link,
    more: seq<Action>, later: Link)
    requires var r := Run(f, Started(disk), actions); id in r.running && r.running[id] == f.Of(payload)
    requires (outcome.Nacked? || link == Up) && forall a | a in more :: Spares(id, a)
    ensures var r := Run(f, Started(disk), actions);
            var done := Step(f, r, Finish(id, outcome, Works, link));
            var after := Run(f, done, more);
            && done.replies == r.replies + Told(link, Report(id, outcome, false))
            && Step(f, after, Deliver(id, payload, later))
               == after.(replies := after.replies + Told(later, Report(id, outcome, outcome.Acked?)))
  {
    var r := Run(f, Started(disk), actions);
    var done := Step(f, r, Finish(id, outcome, Works, link));
    RunKeepsInv(f, disk, actions);
    CompletionsAreAnswered(f, r, id, outcome, Works, link);
    StepKeepsInv(f, r, Finish(id, outcome, Works, link));
    hide Inv, Step, Run;
    RunRemembers(f, done, more, id, f.Of(payload), outcome);
    DeliveriesAreAnswered(f, Run(f, done, more), id, payload, later, outcome);
    assert done.replies == r.replies + Told(link, Report(id, outcome, false));
  }

  /** Its receipt is all that stands between a restarted process and a second run: once it has
      expired the command runs again, with any payload; and what was said stays said. */
  lemma ExpiredCommandsRunAgain(f: Fingerprint, r: Runner, id: Id, payload: Json, link: Link)
    ensures var restarted := Step(f, Step(f, r, Expire(id)), Restart);
            var after := Step(f, restarted, Deliver(id, payload, link));
            && restarted.executed == [] && restarted.disk.Keys == r.receipts.Keys - {id} && restarted.replies == r.replies
            && after.executed == [id] && id in after.running && after.running[id] == f.Of(payload) && after.replies == r.replies
  {}

  /** Some outcome of the handler can be written. */
  predicate GetsStored(a: Action) { a.Finish? ==> a.store == Works || (a.outcome.Acked? && a.store == FailsOnce) }

  /** Whoever waits for the id will be woken. */
  predicate HasHope(r: Runner, id: Id) {
    && (id in r.waiting ==> id in r.running || id in r.completions)
    && (id in r.records && r.records[id].Pending? ==> id in r.running)
  }

  lemma StepKeepsHope(f: Fingerprint, r: Runner, a: Action, id: Id)
    requires Inv(r) && HasHope(r, id) && GetsStored(a)
    ensures HasHope(Step(f, r, a), id)
  {
    hide Begin, Complete, Resume, RefuseUnparsed, Inv;
    match a
    case Deliver(other, payload, link) =>
      DeliveriesAreAnswered(f, r, other, payload, link, Acked(payload));
      if Known(r, other) { KnownBeginRunsNothing(r, other, f.Of(payload), link); KnownWaits(f, r, other, payload, link); }
    case Finish(other, result, store, link) => if other in r.running { FinishKeepsHope(f, r, other, result, store, link, id); }
    case Wake(other, link) => if other in r.waiting && other in r.completions { WakesAreAnswered(f, r, other, link); }
    case Unparsed(other, payload, error, written, link) => UnparsedAreAnswered(f, r, other, payload, error, written, link);
    case Expire(_) =>
    case Restart =>
  }

  lemma FinishKeepsHope(f: Fingerprint, r: Runner, other: Id, outcome: Outcome, store: Store, link: Link, id: Id)
    requires Inv(r) && HasHope(r, id) && other in r.running && GetsStored(Finish(other, outcome, store, link))
    ensures HasHope(Step(f, r, Finish(other, outcome, store, link)), id)
  {
    hide Step, Told;
    CompletionsAreAnswered(f, r, other, outcome, store, link);
  }

  lemma KnownWaits(f: Fingerprint, r: Runner, id: Id, payload: Json, link: Link)
    requires Known(r, id)
    ensures Step(f, r, Deliver(id, payload, link)).waiting == r.waiting + if IsPending(r, id, f.Of(payload)) then multiset{id} else multiset{}
  {}

  /** Where some outcome of every handler can be written, a repeat that waits is never
      stranded: its command is running, or has settled and a wake will report it. */
  lemma {:induction false} WaitersAreNotStranded(f: Fingerprint, disk: map<Id, Receipt>, actions: seq<Action>, id: Id)
    requires forall a | a in actions :: GetsStored(a)
    ensures HasHope(Run(f, Started(disk), actions), id)
    decreases |actions|
  {
    if actions != [] {
      var n := |actions| - 1;
      WaitersAreNotStranded(f, disk, actions[..n], id);
      RunKeepsInv(f, disk, actions[..n]);
      StepKeepsHope(f, Run(f, Started(disk), actions[..n]), actions[n], id);
    }
  }

  /** Its promise is gone: the command is settled on record and no longer runs. */
  predicate IsStranded(r: Runner, id: Id) {
    id in r.waiting && id !in r.completions && id !in r.running && id in r.records && r.records[id].Settled?
  }

  lemma StepKeepsStranded(f: Fingerprint, r: Runner, a: Action, id: Id)
    requires Inv(r) && IsStranded(r, id) && !a.Restart?
    ensures IsStranded(Step(f, r, a), id)
  {
    hide Begin, Complete, Resume, RefuseUnparsed;
    match a
    case Deliver(other, payload, link) =>
      DeliveriesAreAnswered(f, r, other, payload, link, Acked(payload));
      if Known(r, other) { KnownBeginRunsNothing(r, other, f.Of(payload), link); KnownWaits(f, r, other, payload, link); }
    case Finish(other, result, store, link) => if other in r.running { CompletionsAreAnswered(f, r, other, result, store, link); }
    case Wake(other, link) => if other in r.waiting && other in r.completions { WakesAreAnswered(f, r, other, link); }
    case Unparsed(other, payload, error, written, link) => UnparsedAreAnswered(f, r, other, payload, error, written, link);
    case Expire(_) =>
  }

  lemma {:induction false} RunKeepsStranded(f: Fingerprint, r: Runner, more: seq<Action>, id: Id)
    requires Inv(r) && IsStranded(r, id) && forall a | a in more :: !a.Restart?
    ensures Inv(Run(f, r, more)) && IsStranded(Run(f, r, more), id)
    decreases |more|
  {
    hide Inv, Step, IsStranded;
    if more != [] {
      var n := |more| - 1;
      RunKeepsStranded(f, r, more[..n], id);
      StepKeepsInv(f, Run(f, r, more[..n]), more[n]);
      StepKeepsStranded(f, Run(f, r, more[..n]), more[n], id);
    }
  }

  /** Where no outcome can be written, it is: a repeat that came while the handler ran waits
      for as long as the process lives. */
  lemma WaitersMayBeStranded(f: Fingerprint, disk: map<Id, Receipt>, actions: seq<Action>, id: Id, outcome: Outcome, store: Store, link: Link, more: seq<Action>)
    requires var r := Run(f, Started(disk), actions); id in r.running && id in r.waiting
    requires !GetsStored(Finish(id, outcome, store, link)) && forall a | a in more :: !a.Restart?
    ensures var r := Run(f, Started(disk), actions); IsStranded(Run(f, Step(f, r, Finish(id, outcome, store, link)), more), id)
  {
    var r := Run(f, Started(disk), actions);
    RunKeepsInv(f, disk, actions);
    CompletionsAreAnswered(f, r, id, outcome, store, link);
    StepKeepsInv(f, r, Finish(id, outcome, store, link));
    RunKeepsStranded(f, Step(f, r, Finish(id, outcome, store, link)), more, id);
    hide Inv, Step, Run;
  }

  // ---------- The command table of the runner's connection ----------

  datatype Next = RunHandler | AwaitCompletion | Answered

  class RunnerConnection {
    var commandRecords: map<Id, Record>
    var commandReceipts: map<Id, Receipt>
    var writtenReceipts: map<Id, Receipt>
    var completions: map<Id, Outcome>
    var replies: seq<Reply>
    ghost var running: map<Id, Hash>
    ghost var waiting: multiset<Id>
    ghost var executed: seq<Id>
    const fingerprint: Fingerprint

    ghost function State(): Runner
      reads this
    {
      Runner(commandRecords, commandReceipts, writtenReceipts, completions, running, waiting, executed, replies)
    }

    constructor (fingerprint: Fingerprint, receipts: map<Id, Receipt>)
      ensures State() == Started(receipts) && this.fingerprint == fingerprint
    {
      this.fingerprint := fingerprint;
      commandRecords, commandReceipts, writtenReceipts, completions, replies := map[], receipts, receipts, map[], [];
      running, waiting, executed := map[], multiset{}, [];
    }

    method SendReply(link: Link, reply: Reply) returns (sent: bool)
      modifies this
      ensures State() == Send(old(State()), link, reply) && sent == (link != Down)
    {
      if link == Down { return false; }
      replies := replies + [reply];
      sent := true;
    }

    method SetRecord(id: Id, hash: Hash, outcome: Outcome, written: bool)
      modifies this
      ensures State() == Recorded(old(State()), id, hash, outcome, written)
    {
      commandRecords := commandRecords[id := Settled(hash, outcome)];
      commandReceipts := commandReceipts[id := Receipt(hash, outcome)];
      if written { writtenReceipts := commandReceipts; }
    }

    method SettleCommand(id: Id, outcome: Outcome)
      modifies this
      ensures State() == Settle(old(State()), id, outcome)
    {
      if id !in completions { completions := completions[id := outcome]; }
    }

    /** Everything up to the await of the handler or of the first delivery's completion. */
    method HandleCommand(id: Id, payload: Json, link: Link) returns (next: Next)
      modifies this
      ensures State() == Step(fingerprint, old(State()), Deliver(id, payload, link))
      ensures next.RunHandler? <==> !old(Known(State(), id))
      ensures next.AwaitCompletion? <==> old(Known(State(), id) && Existing(State(), id) == Pending(fingerprint.Of(payload)))
    {
      var hash := fingerprint.Of(payload);
      if id in commandRecords || id in commandReceipts {
        var existing := if id in commandRecords then commandRecords[id]
                        else Settled(commandReceipts[id].hash, commandReceipts[id].outcome);
        if existing.hash == hash {
          if existing.Pending? {
            waiting := waiting + multiset{id};
            return AwaitCompletion;
          }
          var _ := SendReply(link, Report(id, existing.outcome, existing.outcome.Acked?));
          return Answered;
        }
        var _ := SendReply(link, Mismatch(id));
        return Answered;
      }
      commandRecords := commandRecords[id := Pending(hash)];
      running, executed := running[id := hash], executed + [id];
      next := RunHandler;
    }

    /** Everything after the handler's await, with the catch that rewrites the record. */
    method HandlerReturned(id: Id, hash: Hash, outcome: Outcome, store: Store, link: Link)
      requires id in running && running[id] == hash
      modifies this
      ensures State() == Complete(old(State()), id, outcome, store, link)
      ensures outcome.Acked? && id !in old(completions) ==>
                id in commandRecords && commandRecords[id].Settled? && (commandRecords[id].outcome == outcome <==> store == Works && link == Up)
    {
      hide Refuse, Recorded, Settle;
      if outcome.Acked? && id !in completions { AcknowledgementIsRecorded(State(), id, outcome.result, store, link); }
      running := running - {id};
      if outcome.Nacked? {
        HandlerFailed(id, hash, outcome.error, store == Works, link);
        return;
      }
      SetRecord(id, hash, outcome, store == Works);
      if store != Works {
        HandlerFailed(id, hash, STORE_ERROR, store == FailsOnce, link);
        return;
      }
      SettleCommand(id, outcome);
      var sent := SendReply(link, Report(id, outcome, false));
      if !sent || link != Up {
        HandlerFailed(id, hash, SEND_ERROR, true, link);
      }
    }

    method HandlerFailed(id: Id, hash: Hash, error: Text, written: bool, link: Link)
      modifies this
      ensures State() == Refuse(old(State()), id, hash, error, written, link)
    {
      SetRecord(id, hash, Nacked(error), written);
      if !written { return; }
      SettleCommand(id, Nacked(error));
      var _ := SendReply(link, Report(id, Nacked(error), false));
    }

    /** A repeat that awaited the completion of the first delivery. */
    method CompletionAwaited(id: Id, link: Link)
      requires id in waiting && id in completions
      modifies this
      ensures State() == Step(fingerprint, old(State()), Wake(id, link))
    {
      waiting := waiting - multiset{id};
      var settled := completions[id];
      var _ := SendReply(link, Report(id, settled, settled.Acked?));
    }

    method SendParseNack(id: Id, payload: Json, error: Text, written: bool, link: Link)
      modifies this
      ensures State() == RefuseUnparsed(old(State()), id, fingerprint.Of(payload), error, written, link)
      ensures id in commandRecords && commandRecords[id] == Settled(fingerprint.Of(payload), Nacked(error))
    {
      hide Begin, Complete, Refuse, Existing, PrintMembers, Print;
      SetRecord(id, fingerprint.Of(payload), Nacked(error), written);
      if !written { return; }
      var _ := SendReply(link, Report(id, Nacked(error), false));
    }
  }
}
