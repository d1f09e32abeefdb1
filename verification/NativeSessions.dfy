/** Native session ownership: physical generations opened and closed by suspended
    operations, fenced by observations, aborts and disposal. */
module NativeSessions {
  import opened Options

  type SessionId = string
  type Token = nat

  datatype Kind = Configured | Exited | OwnerLost | OtherKind

  datatype Event = Event(
    session: SessionId, sequence: int, kind: Kind, profile: Option<string>, conversationReady: bool,
    nativeReference: Option<string>, provider: Option<string>, ownerClosed: bool)

  datatype Payload = Payload(
    session: SessionId, profile: Option<string>, firstTurn: bool, group: Option<string>,
    expectedNative: Option<string>, provider: Option<string>)

  datatype Phase = Opening | Reserved | Active | Closing | Closed | Unconfirmed

  datatype Record = Record(
    payload: Payload, phase: Phase, closeAttempted: bool, configured: Option<Event>, exited: Option<Event>)

  datatype Readiness = Unspecified | ConfiguredOnly | Conversation | Undeclared

  /** A suspended operation; `sent` tells whether its command left. */
  datatype Attempt =
    | OpenAttempt(session: SessionId, readiness: Readiness, sent: bool)
    | CloseAttempt(session: SessionId, sent: bool)

  datatype Command = StartSent(session: SessionId) | StopSent(session: SessionId)

  datatype Registry = Registry(
    records: map<SessionId, Record>, mutations: map<SessionId, Token>, positions: map<SessionId, int>,
    disposed: bool, subscribed: bool, issued: nat, attempts: map<Token, Attempt>, commands: seq<Command>)

  const CAPACITY := 4096

  const EMPTY := Registry(map[], map[], map[], false, true, 0, map[], [])

  /** An optional text that is present and not empty. */
  predicate Given(text: Option<string>) { text.Some? && text.value != "" }

  predicate Ready(e: Event, profile: Option<string>) {
    e.kind.Configured? && e.profile == profile && e.conversationReady && e.nativeReference.Some?
  }

  predicate IsExitProof(e: Event, payload: Payload) {
    e.session == payload.session && e.kind.Exited? && e.provider == payload.provider && e.ownerClosed
  }

  // ---------- The atomic segments of the operations ----------

  predicate GroupIsFree(records: map<SessionId, Record>, group: Option<string>) {
    forall id | id in records :: records[id].payload.group == group ==> records[id].phase.Closed?
  }

  predicate MayOpen(r: Registry, input: Payload, readiness: Readiness) {
    && Given(input.profile) && !input.firstTurn && !readiness.Undeclared?
    && input.session !in r.records && |r.records| < CAPACITY
    && (Given(input.group) ==> GroupIsFree(r.records, input.group))
  }

  function BeginOpen(r: Registry, input: Payload, readiness: Readiness, aborted: bool, sent: bool): Registry {
    if r.disposed || aborted || !MayOpen(r, input, readiness) then r
    else
      r.(records := r.records[input.session := Record(input, Opening, false, None, None)],
         mutations := r.mutations[input.session := r.issued],
         issued := r.issued + 1,
         attempts := r.attempts[r.issued := OpenAttempt(input.session, readiness, sent)],
         commands := if sent then r.commands + [StartSent(input.session)] else r.commands)
  }

  predicate MayClose(r: Registry, id: SessionId) {
    id in r.records && !r.records[id].phase.Closed? && !r.records[id].phase.Opening? && !r.records[id].phase.Closing?
    && !r.records[id].closeAttempted
  }

  function BeginClose(r: Registry, id: SessionId, aborted: bool, sent: bool): Registry {
    if r.disposed || aborted || !MayClose(r, id) then r
    else
      r.(records := r.records[id := r.records[id].(phase := Closing, closeAttempted := true)],
         mutations := r.mutations[id := r.issued],
         issued := r.issued + 1,
         attempts := r.attempts[r.issued := CloseAttempt(id, sent)],
         commands := if sent then r.commands + [StopSent(id)] else r.commands)
  }

  predicate Owns(r: Registry, token: Token) {
    token in r.attempts && var id := r.attempts[token].session; id in r.mutations && r.mutations[id] == token
  }

  function Doubted(record: Record): Record { if record.phase.Closed? then record else record.(phase := Unconfirmed) }

  function Doubt(r: Registry, id: SessionId): Registry {
    r.(records := if id in r.records then r.records[id := Doubted(r.records[id])] else r.records, mutations := r.mutations - {id})
  }

  function Fence(r: Registry, token: Token): Registry {
    if Owns(r, token) then Doubt(r, r.attempts[token].session) else r
  }

  function Drop(r: Registry, token: Token): Registry { r.(attempts := r.attempts - {token}) }

  /** The event that ended an open's wait. */
  predicate EndsOpenWait(attempts: map<Token, Attempt>, records: map<SessionId, Record>, token: Token, observed: Event) {
    token in attempts && attempts[token].OpenAttempt? && attempts[token].sent
    && var id := attempts[token].session;
       id in records && observed.session == id && observed.kind.Configured? && observed.profile == records[id].payload.profile
       && (attempts[token].readiness.ConfiguredOnly? || Ready(observed, observed.profile))
  }

  /** A readiness that arrived while the acknowledgement was pending. */
  predicate IsLatest(latest: Option<Event>, observed: Event) {
    latest.Some? ==> latest.value.session == observed.session && latest.value.sequence >= observed.sequence
                     && Ready(latest.value, observed.profile)
  }

  predicate NativeChanged(payload: Payload, e: Event) {
    Given(payload.expectedNative) && e.nativeReference != payload.expectedNative
  }

  /** The record after an open: a conversation other than the expected one leaves it in doubt. */
  function Opened(record: Record, configured: Event): Record {
    var shown := record.(configured := Some(configured));
    if !Ready(configured, record.payload.profile) then shown.(phase := Reserved)
    else if NativeChanged(record.payload, configured) then Doubted(shown)
    else shown.(phase := Active)
  }

  function CommitOpen(r: Registry, token: Token, observed: Event, latest: Option<Event>): Registry {
    if !EndsOpenWait(r.attempts, r.records, token, observed) || !IsLatest(latest, observed) then r
    else if !Owns(r, token) then Drop(r, token)
    else
      var id := r.attempts[token].session;
      var record := r.records[id];
      var configured := if latest.Some? then latest.value else observed;
      Drop(r.(records := r.records[id := Opened(record, configured)],
              mutations := r.mutations - {id}), token)
  }

  predicate EndsCloseWait(attempts: map<Token, Attempt>, records: map<SessionId, Record>, token: Token, observed: Event) {
    token in attempts && attempts[token].CloseAttempt? && attempts[token].sent
    && var id := attempts[token].session; id in records && IsExitProof(observed, records[id].payload)
  }

  function CommitClose(r: Registry, token: Token, observed: Event): Registry {
    if !EndsCloseWait(r.attempts, r.records, token, observed) then r
    else if !Owns(r, token) then Drop(r, token)
    else
      var id := r.attempts[token].session;
      Drop(r.(records := r.records[id := r.records[id].(phase := Closed, exited := Some(observed))],
              mutations := r.mutations - {id}), token)
  }

  // ---------- Observations ----------

  function PositionOf(r: Registry, id: SessionId): int { if id in r.positions then r.positions[id] else 0 }

  predicate IsNews(r: Registry, e: Event) {
    e.session in r.records && !r.records[e.session].phase.Closed? && e.sequence > PositionOf(r, e.session)
  }

  predicate ContinuesConversation(record: Record, e: Event) {
    (record.phase.Reserved? || record.phase.Active?) && Ready(e, record.payload.profile)
  }

  predicate ConflictsWith(record: Record, e: Event) {
    || NativeChanged(record.payload, e)
    || (record.phase.Active? && (record.configured.None? || record.configured.value.nativeReference != e.nativeReference))
  }

  function ObserveStep(r: Registry, e: Event): Registry {
    if !r.subscribed || !IsNews(r, e) then r
    else
      var seen, record := r.(positions := r.positions[e.session := e.sequence]), r.records[e.session];
      if e.kind.Exited? && !record.phase.Closing? then Doubt(seen, e.session)
      else if ContinuesConversation(record, e) then
        if ConflictsWith(record, e) then Doubt(seen, e.session)
        else seen.(records := seen.records[e.session := record.(configured := Some(e), phase := Active)])
      else if e.kind.OwnerLost? && !record.phase.Closing? then Doubt(seen, e.session)
      else seen
  }

  predicate Concerns(which: Option<SessionId>, id: SessionId) { Given(which) ==> which.value == id }

  predicate Revoked(records: map<SessionId, Record>, which: Option<SessionId>, id: SessionId) {
    Concerns(which, id) && id in records && !records[id].phase.Closed?
  }

  /** Continuity lost for one session or for all of them. */
  function Lose(r: Registry, which: Option<SessionId>): Registry {
    if !r.subscribed then r
    else
      r.(records := map id | id in r.records :: if Concerns(which, id) then Doubted(r.records[id]) else r.records[id],
         mutations := map id | id in r.mutations && !Revoked(r.records, which, id) :: r.mutations[id])
  }

  function Dispose(r: Registry): Registry {
    r.(disposed := true, subscribed := false, mutations := map[],
       records := map id | id in r.records :: Doubted(r.records[id]))
  }

  // ---------- Runs ----------

  datatype Action =
    | DoBeginOpen(input: Payload, readiness: Readiness, aborted: bool, sent: bool)
    | DoCommitOpen(token: Token, observed: Event, latest: Option<Event>)
    | DoBeginClose(id: SessionId, aborted: bool, sent: bool)
    | DoCommitClose(token: Token, observed: Event)
    | DoFail(token: Token)
    | DoAbort(token: Token)
    | DoObserve(event: Event)
    | DoLose(which: Option<SessionId>)
    | DoDisconnect
    | DoDispose

  function Step(r: Registry, a: Action): Registry {
    match a
    case DoBeginOpen(input, readiness, aborted, sent) => BeginOpen(r, input, readiness, aborted, sent)
    case DoCommitOpen(token, observed, latest) => CommitOpen(r, token, observed, latest)
    case DoBeginClose(id, aborted, sent) => BeginClose(r, id, aborted, sent)
    case DoCommitClose(token, observed) => CommitClose(r, token, observed)
    case DoFail(token) => Drop(Fence(r, token), token)
    case DoAbort(token) => Fence(r, token)
    case DoObserve(e) => ObserveStep(r, e)
    case DoLose(which) => Lose(r, which)
    case DoDisconnect => Lose(r, None).(subscribed := false)
    case DoDispose => Dispose(r)
  }

  function Run(r: Registry, actions: seq<Action>): Registry
    decreases |actions|
  {
    if actions == [] then r else Step(Run(r, actions[..|actions| - 1]), actions[|actions| - 1])
  }

  // ---------- What every run keeps ----------

  predicate IsShown(e: Event, payload: Payload) { Ready(e, payload.profile) && !NativeChanged(payload, e) }

  predicate RecordOk(id: SessionId, record: Record, owned: bool) {
    && record.payload.session == id && Given(record.payload.profile)
    && (record.phase.Active? ==> record.configured.Some? && IsShown(record.configured.value, record.payload))
    && (record.phase.Closed? ==> record.exited.Some? && IsExitProof(record.exited.value, record.payload) && record.closeAttempted)
    && (record.phase.Closing? ==> record.closeAttempted)
    && (record.phase.Opening? ==> !record.closeAttempted)
    && (owned <==> record.phase.Opening? || record.phase.Closing?)
  }

  ghost predicate RecordsOk(r: Registry) {
    forall id | id in r.records :: RecordOk(id, r.records[id], id in r.mutations)
  }

  /** Every operation that may still commit belongs to a record waiting for exactly it. */
  predicate OwnerOk(r: Registry, id: SessionId)
    requires id in r.mutations
  {
    && id in r.records && r.mutations[id] in r.attempts && r.attempts[r.mutations[id]].session == id
    && (r.attempts[r.mutations[id]].OpenAttempt? <==> r.records[id].phase.Opening?)
  }

  ghost predicate OwnersOk(r: Registry) {
    && (forall id | id in r.mutations :: OwnerOk(r, id))
    && (forall token | token in r.attempts :: token < r.issued)
  }

  predicate Unresolved(r: Registry, id: SessionId, group: Option<string>) {
    id in r.records && r.records[id].payload.group == group && !r.records[id].phase.Closed?
  }

  /** At most one unresolved generation in each continuation group. */
  ghost predicate GroupsOk(r: Registry) {
    forall group, a, b :: Given(group) && Unresolved(r, a, group) && Unresolved(r, b, group) ==> a == b
  }

  predicate CommandOk(r: Registry, command: Command) {
    command.session in r.records && (command.StopSent? ==> r.records[command.session].closeAttempted)
  }

  ghost predicate CommandsOk(r: Registry) {
    && (forall i | 0 <= i < |r.commands| :: CommandOk(r, r.commands[i]))
    && (forall i, j | 0 <= i < j < |r.commands| :: r.commands[i] != r.commands[j])
  }

  ghost predicate Inv(r: Registry) {
    RecordsOk(r) && OwnersOk(r) && GroupsOk(r) && CommandsOk(r) && |r.records| <= CAPACITY
  }

  /** How a step that opens nothing may change the records. */
  predicate RecordAdvances(before: Record, after: Record) {
    && after.payload == before.payload
    && (before.phase.Closed? ==> after == before)
    && (before.closeAttempted ==> after.closeAttempted)
    && (after.phase.Opening? ==> before.phase.Opening?)
  }

  ghost predicate Advances(r: Registry, after: Registry) {
    && after.records.Keys == r.records.Keys
    && (forall id | id in r.records :: RecordAdvances(r.records[id], after.records[id]))
  }

  lemma AdvancesKeepsGroups(r: Registry, after: Registry)
    requires GroupsOk(r) && Advances(r, after)
    ensures GroupsOk(after)
  {
    forall group, a, b | Given(group) && Unresolved(after, a, group) && Unresolved(after, b, group) ensures a == b {
      assert Unresolved(r, a, group) && Unresolved(r, b, group);
    }
  }

  /** How a step that issues no authority may settle, doubt or refresh records. */
  ghost predicate Settles(r: Registry, after: Registry) {
    && Advances(r, after)
    && (forall id | id in r.records :: RecordOk(id, after.records[id], id in after.mutations))
    && (forall id | id in after.mutations :: KeepsAuthority(r, after, id))
    && after.issued == r.issued && after.attempts == r.attempts && after.commands == r.commands
  }

  predicate KeepsAuthority(r: Registry, after: Registry, id: SessionId)
    requires id in after.mutations
  {
    && id in r.mutations && after.mutations[id] == r.mutations[id]
    && id in r.records && id in after.records && after.records[id].phase.Opening? == r.records[id].phase.Opening?
  }

  lemma SettlesKeepsInv(r: Registry, after: Registry)
    requires Inv(r) && Settles(r, after)
    ensures Inv(after)
  {
    AdvancesKeepsGroups(r, after);
    forall id | id in after.mutations ensures OwnerOk(after, id) {
      assert KeepsAuthority(r, after, id) && OwnerOk(r, id);
    }
    assert |after.records.Keys| == |r.records.Keys|;
  }

  lemma DropKeepsInv(r: Registry, token: Token)
    requires Inv(r) && !Owns(r, token)
    ensures Inv(Drop(r, token))
  {
    var after := Drop(r, token);
    forall id | id in after.mutations ensures OwnerOk(after, id) {
      assert OwnerOk(r, id);
    }
    assert forall i | 0 <= i < |after.commands| :: CommandOk(r, r.commands[i]) ==> CommandOk(after, after.commands[i]);
    assert forall group, id :: Unresolved(after, id, group) ==> Unresolved(r, id, group);
  }

  /** One record changes, and nobody owns it any more. */
  lemma OneSettles(r: Registry, after: Registry, id: SessionId, record: Record)
    requires Inv(r) && id in r.records && RecordAdvances(r.records[id], record) && RecordOk(id, record, false)
    requires after == r.(records := r.records[id := record], mutations := r.mutations - {id}, positions := after.positions)
    ensures Settles(r, after)
  {
    hide RecordOk, Unresolved, IsExitProof, CommandsOk;
    assert after.records.Keys == r.records.Keys;
    forall other | other in r.records ensures RecordOk(other, after.records[other], other in after.mutations) {
      assert RecordOk(other, r.records[other], other in r.mutations);
    }
    forall other | other in after.mutations ensures KeepsAuthority(r, after, other) {
      assert OwnerOk(r, other);
    }
  }

  lemma DoubtSettles(r: Registry, id: SessionId, positions: map<SessionId, int>)
    requires Inv(r) && id in r.records
    ensures Settles(r, Doubt(r.(positions := positions), id))
  {
    assert RecordOk(id, r.records[id], id in r.mutations);
    OneSettles(r, Doubt(r.(positions := positions), id), id, Doubted(r.records[id]));
  }

  lemma FenceSettles(r: Registry, token: Token)
    requires Inv(r)
    ensures Settles(r, Fence(r, token)) && !Owns(Fence(r, token), token)
  {
    hide RecordOk, Unresolved, IsExitProof;
    if Owns(r, token) {
      var id := r.attempts[token].session;
      assert OwnerOk(r, id);
      DoubtSettles(r, id, r.positions);
      assert r.(positions := r.positions) == r;
    } else {
    }
  }

  lemma CommitOpenKeepsInv(r: Registry, token: Token, observed: Event, latest: Option<Event>)
    requires Inv(r)
    ensures Inv(CommitOpen(r, token, observed, latest)) && Advances(r, CommitOpen(r, token, observed, latest))
  {
    hide Inv, Settles, OwnersOk, RecordsOk, GroupsOk, CommandsOk;
    if EndsOpenWait(r.attempts, r.records, token, observed) && IsLatest(latest, observed) {
      var id := r.attempts[token].session;
      var configured := if latest.Some? then latest.value else observed;
      if !Owns(r, token) {
        DropKeepsInv(r, token);
      } else {
        ConfiguredKeepsInv(r, token, configured);
      }
    }
  }

  lemma ConfiguredKeepsInv(r: Registry, token: Token, configured: Event)
    requires Inv(r) && Owns(r, token) && r.attempts[token].OpenAttempt? && r.attempts[token].session in r.records
    ensures var id := r.attempts[token].session;
            var record := Opened(r.records[id], configured);
            var after := Drop(r.(records := r.records[id := record], mutations := r.mutations - {id}), token);
            Inv(after) && Advances(r, after)
  {
    var id := r.attempts[token].session;
    assert OwnerOk(r, id) && RecordOk(id, r.records[id], id in r.mutations);
    var record := Opened(r.records[id], configured);
    var after := r.(records := r.records[id := record], mutations := r.mutations - {id});
    hide Inv, OwnersOk, RecordsOk, GroupsOk, CommandsOk;
    OneSettles(r, after, id, record);
    SettlesKeepsInv(r, after);
    DropKeepsInv(after, token);
  }

  lemma CommitCloseKeepsInv(r: Registry, token: Token, observed: Event)
    requires Inv(r)
    ensures Inv(CommitClose(r, token, observed)) && Advances(r, CommitClose(r, token, observed))
  {
    hide RecordsOk, GroupsOk, CommandsOk, IsExitProof;
    if EndsCloseWait(r.attempts, r.records, token, observed) {
      if !Owns(r, token) {
        DropKeepsInv(r, token);
      } else {
        ClosedKeepsInv(r, token, observed);
      }
    }
  }

  lemma ClosedKeepsInv(r: Registry, token: Token, observed: Event)
    requires Inv(r) && EndsCloseWait(r.attempts, r.records, token, observed) && Owns(r, token)
    ensures var id := r.attempts[token].session;
            var record := r.records[id].(phase := Closed, exited := Some(observed));
            var after := Drop(r.(records := r.records[id := record], mutations := r.mutations - {id}), token);
            Inv(after) && Advances(r, after)
  {
    var id := r.attempts[token].session;
    assert OwnerOk(r, id) && RecordOk(id, r.records[id], id in r.mutations);
    var record := r.records[id].(phase := Closed, exited := Some(observed));
    var after := r.(records := r.records[id := record], mutations := r.mutations - {id});
    hide GroupsOk, CommandsOk;
    OneSettles(r, after, id, record);
    SettlesKeepsInv(r, after);
    DropKeepsInv(after, token);
  }

  lemma ObserveSettles(r: Registry, e: Event)
    requires Inv(r)
    ensures Settles(r, ObserveStep(r, e))
  {
    hide RecordOk, Unresolved, IsExitProof, ConflictsWith, CommandsOk;
    if r.subscribed && IsNews(r, e) {
      var record, positions := r.records[e.session], r.positions[e.session := e.sequence];
      hide Inv, Settles, Doubt;
      DoubtSettles(r, e.session, positions);
      if ContinuesConversation(record, e) && !ConflictsWith(record, e) {
        RefreshSettles(r, e, positions);
      }
    }
  }

  lemma RefreshSettles(r: Registry, e: Event, positions: map<SessionId, int>)
    requires Inv(r) && e.session in r.records
    requires ContinuesConversation(r.records[e.session], e) && !ConflictsWith(r.records[e.session], e)
    ensures var record := r.records[e.session].(configured := Some(e), phase := Active);
            Settles(r, r.(positions := positions, records := r.records[e.session := record]))
  {
    var record := r.records[e.session].(configured := Some(e), phase := Active);
    assert RecordOk(e.session, r.records[e.session], e.session in r.mutations);
    assert r.mutations - {e.session} == r.mutations;
    hide Inv, Settles;
    OneSettles(r, r.(positions := positions, records := r.records[e.session := record]), e.session, record);
  }

  lemma LoseSettles(r: Registry, which: Option<SessionId>)
    requires Inv(r)
    ensures Settles(r, Lose(r, which))
  {
    hide Step, ObserveStep, RecordOk;
    if r.subscribed {
      LoseRecords(r, which);
    }
  }

  lemma LoseRecords(r: Registry, which: Option<SessionId>)
    requires RecordsOk(r) && r.subscribed
    ensures Advances(r, Lose(r, which))
    ensures forall id | id in r.records :: RecordOk(id, Lose(r, which).records[id], id in Lose(r, which).mutations)
  {
    var after := Lose(r, which);
    forall id | id in r.records
      ensures RecordAdvances(r.records[id], after.records[id]) && RecordOk(id, after.records[id], id in after.mutations)
    {
      assert RecordOk(id, r.records[id], id in r.mutations);
    }
  }

  lemma DisposeKeepsInv(r: Registry)
    requires Inv(r)
    ensures Inv(Dispose(r)) && Advances(r, Dispose(r))
  {
    hide RecordsOk, GroupsOk, CommandsOk;
    DisposeRecords(r);
    SettlesKeepsInv(r, Dispose(r));
  }

  lemma DisposeRecords(r: Registry)
    requires RecordsOk(r)
    ensures Advances(r, Dispose(r))
    ensures forall id | id in r.records :: RecordOk(id, Dispose(r).records[id], false)
  {
    var after := Dispose(r);
    forall id | id in r.records
      ensures RecordAdvances(r.records[id], after.records[id]) && RecordOk(id, after.records[id], false)
    {
      assert RecordOk(id, r.records[id], id in r.mutations);
    }
  }

  lemma BeginOpenKeepsInv(r: Registry, input: Payload, readiness: Readiness, aborted: bool, sent: bool)
    requires Inv(r)
    ensures Inv(BeginOpen(r, input, readiness, aborted, sent))
  {
    hide Inv, GroupIsFree;
    var after := BeginOpen(r, input, readiness, aborted, sent);
    if !r.disposed && !aborted && MayOpen(r, input, readiness) {
      OpenedKeepsInv(r, after, input, OpenAttempt(input.session, readiness, sent), sent);
    }
  }

  lemma OpenedKeepsInv(r: Registry, after: Registry, input: Payload, attempt: Attempt, sent: bool)
    requires Inv(r) && input.session !in r.records && Given(input.profile) && |r.records| < CAPACITY
    requires Given(input.group) ==> GroupIsFree(r.records, input.group)
    requires attempt.OpenAttempt? && attempt.session == input.session
    requires after.records == r.records[input.session := Record(input, Opening, false, None, None)]
    requires after.mutations == r.mutations[input.session := r.issued]
    requires after.attempts == r.attempts[r.issued := attempt] && after.issued == r.issued + 1
    requires after.commands == if sent then r.commands + [StartSent(input.session)] else r.commands
    ensures Inv(after)
  {
    hide RecordsOk, OwnersOk, GroupsOk, CommandsOk, GroupIsFree;
    OpenKeepsRecords(r, after, input);
    OpenKeepsOwners(r, after, input, attempt);
    OpenKeepsGroups(r, after, input);
    OpenKeepsCommands(r, after, input.session, sent);
  }

  lemma OpenKeepsRecords(r: Registry, after: Registry, input: Payload)
    requires RecordsOk(r) && input.session !in r.records && Given(input.profile)
    requires after.records == r.records[input.session := Record(input, Opening, false, None, None)]
    requires after.mutations == r.mutations[input.session := r.issued]
    ensures RecordsOk(after)
  {
    forall id | id in after.records ensures RecordOk(id, after.records[id], id in after.mutations) {
      if id != input.session { assert RecordOk(id, r.records[id], id in r.mutations); }
    }
  }

  lemma OpenKeepsOwners(r: Registry, after: Registry, input: Payload, attempt: Attempt)
    requires OwnersOk(r) && input.session !in r.records && attempt.OpenAttempt? && attempt.session == input.session
    requires after.records == r.records[input.session := Record(input, Opening, false, None, None)]
    requires after.mutations == r.mutations[input.session := r.issued]
    requires after.attempts == r.attempts[r.issued := attempt] && after.issued == r.issued + 1
    ensures OwnersOk(after)
  {
    forall id | id in after.mutations ensures OwnerOk(after, id) {
      if id != input.session { assert OwnerOk(r, id); }
    }
  }

  lemma OpenKeepsGroups(r: Registry, after: Registry, input: Payload)
    requires GroupsOk(r) && input.session !in r.records && (Given(input.group) ==> GroupIsFree(r.records, input.group))
    requires after.records == r.records[input.session := Record(input, Opening, false, None, None)]
    ensures GroupsOk(after)
  {
    forall group, a, b | Given(group) && Unresolved(after, a, group) && Unresolved(after, b, group) ensures a == b {
      if a != input.session { assert Unresolved(r, a, group); }
      if b != input.session { assert Unresolved(r, b, group); }
    }
  }

  lemma OpenKeepsCommands(r: Registry, after: Registry, id: SessionId, sent: bool)
    requires CommandsOk(r) && id !in r.records && id in after.records
    requires forall other | other in r.records :: other in after.records && after.records[other] == r.records[other]
    requires after.commands == if sent then r.commands + [StartSent(id)] else r.commands
    ensures CommandsOk(after)
  {
    forall i | 0 <= i < |r.commands| ensures CommandOk(after, after.commands[i]) && after.commands[i] != StartSent(id) {
      assert CommandOk(r, r.commands[i]);
    }
  }

  lemma BeginCloseKeepsInv(r: Registry, id: SessionId, aborted: bool, sent: bool)
    requires Inv(r)
    ensures Inv(BeginClose(r, id, aborted, sent)) && Advances(r, BeginClose(r, id, aborted, sent))
  {
    hide BeginClose, RecordsOk, OwnersOk, GroupsOk, CommandsOk, RecordAdvances;
    var after := BeginClose(r, id, aborted, sent);
    BeginCloseAdvances(r, id, aborted, sent);
    AdvancesKeepsGroups(r, after);
    BeginCloseKeepsRecords(r, id, aborted, sent);
    BeginCloseKeepsOwners(r, id, aborted, sent);
    BeginCloseKeepsCommands(r, id, aborted, sent);
    assert |after.records.Keys| == |r.records.Keys|;
  }

  lemma BeginCloseAdvances(r: Registry, id: SessionId, aborted: bool, sent: bool)
    requires RecordsOk(r)
    ensures Advances(r, BeginClose(r, id, aborted, sent))
  {
    hide RecordOk;
    assert BeginClose(r, id, aborted, sent).records.Keys == r.records.Keys;
  }

  lemma BeginCloseKeepsRecords(r: Registry, id: SessionId, aborted: bool, sent: bool)
    requires RecordsOk(r)
    ensures RecordsOk(BeginClose(r, id, aborted, sent))
  {
    var after := BeginClose(r, id, aborted, sent);
    forall other | other in after.records ensures RecordOk(other, after.records[other], other in after.mutations) {
      assert RecordOk(other, r.records[other], other in r.mutations);
    }
  }

  lemma BeginCloseKeepsOwners(r: Registry, id: SessionId, aborted: bool, sent: bool)
    requires OwnersOk(r)
    ensures OwnersOk(BeginClose(r, id, aborted, sent))
  {
    var after := BeginClose(r, id, aborted, sent);
    forall other | other in after.mutations ensures OwnerOk(after, other) {
      if other in r.mutations { assert OwnerOk(r, other); }
    }
  }

  lemma BeginCloseKeepsCommands(r: Registry, id: SessionId, aborted: bool, sent: bool)
    requires RecordsOk(r) && CommandsOk(r)
    ensures CommandsOk(BeginClose(r, id, aborted, sent))
  {
    hide CommandsOk, RecordsOk;
    BeginCloseAdvances(r, id, aborted, sent);
    if BeginClose(r, id, aborted, sent) != r { CloseKeepsCommands(r, BeginClose(r, id, aborted, sent), id, sent); }
  }

  lemma CloseKeepsCommands(r: Registry, after: Registry, id: SessionId, sent: bool)
    requires CommandsOk(r) && Advances(r, after) && id in r.records && !r.records[id].closeAttempted && after.records[id].closeAttempted
    requires after.commands == if sent then r.commands + [StopSent(id)] else r.commands
    ensures CommandsOk(after)
  {
    forall i | 0 <= i < |r.commands| ensures CommandOk(after, after.commands[i]) && after.commands[i] != StopSent(id) {
      assert CommandOk(r, r.commands[i]);
    }
  }

  lemma StepKeepsInv(r: Registry, a: Action)
    requires Inv(r)
    ensures Inv(Step(r, a))
    ensures !a.DoBeginOpen? ==> Advances(r, Step(r, a))
  {
    hide RecordOk, KeepsAuthority, OwnerOk, RecordAdvances, Unresolved, IsExitProof, RecordsOk;
    match a
    case DoBeginOpen(input, readiness, aborted, sent) => BeginOpenKeepsInv(r, input, readiness, aborted, sent);
    case DoCommitOpen(token, observed, latest) => CommitOpenKeepsInv(r, token, observed, latest);
    case DoBeginClose(id, aborted, sent) => BeginCloseKeepsInv(r, id, aborted, sent);
    case DoCommitClose(token, observed) => CommitCloseKeepsInv(r, token, observed);
    case DoFail(token) =>
      FenceSettles(r, token);
      SettlesKeepsInv(r, Fence(r, token));
      DropKeepsInv(Fence(r, token), token);
    case DoAbort(token) =>
      FenceSettles(r, token);
      SettlesKeepsInv(r, Fence(r, token));
    case DoObserve(e) =>
      ObserveSettles(r, e);
      SettlesKeepsInv(r, ObserveStep(r, e));
    case DoLose(which) =>
      LoseSettles(r, which);
      SettlesKeepsInv(r, Lose(r, which));
    case DoDisconnect =>
      LoseSettles(r, None);
      SettlesKeepsInv(r, Lose(r, None));
      SubscriptionKeepsInv(Lose(r, None));
    case DoDispose => DisposeKeepsInv(r);
  }

  lemma SubscriptionKeepsInv(r: Registry)
    requires Inv(r)
    ensures Inv(r.(subscribed := false))
  {
    var after := r.(subscribed := false);
    forall id | id in r.mutations ensures OwnerOk(after, id) { assert OwnerOk(r, id); }
    assert forall i | 0 <= i < |after.commands| :: CommandOk(r, r.commands[i]) ==> CommandOk(after, after.commands[i]);
    assert forall group, id :: Unresolved(after, id, group) ==> Unresolved(r, id, group);
  }

  lemma {:induction false} RunKeepsInv(actions: seq<Action>)
    ensures Inv(Run(EMPTY, actions))
    decreases |actions|
  {
    if actions != [] {
      RunKeepsInv(actions[..|actions| - 1]);
      StepKeepsInv(Run(EMPTY, actions[..|actions| - 1]), actions[|actions| - 1]);
    }
  }

  // ---------- What holds of every run ----------

  function CountOf(commands: seq<Command>, command: Command): nat {
    if commands == [] then 0 else (if commands[0] == command then 1 else 0) + CountOf(commands[1..], command)
  }

  lemma {:induction false} DistinctCommandsCountOnce(commands: seq<Command>, command: Command)
    requires forall i, j | 0 <= i < j < |commands| :: commands[i] != commands[j]
    ensures CountOf(commands, command) == if command in commands then 1 else 0
  {
    if commands != [] {
      DistinctCommandsCountOnce(commands[1..], command);
      assert commands[0] !in commands[1..];
    }
  }

  /** A generation is started at most once and stopped at most once, whatever the order of
      operations, failures, aborts and observations; and it is stopped only once started
      here or at least recorded here. */
  lemma OneStartAndOneStop(actions: seq<Action>, id: SessionId)
    ensures var after := Run(EMPTY, actions);
            && CountOf(after.commands, StartSent(id)) <= 1
            && CountOf(after.commands, StopSent(id)) <= 1
            && (StopSent(id) in after.commands ==> id in after.records && after.records[id].closeAttempted)
  {
    RunKeepsInv(actions);
    var after := Run(EMPTY, actions);
    DistinctCommandsCountOnce(after.commands, StartSent(id));
    DistinctCommandsCountOnce(after.commands, StopSent(id));
    if StopSent(id) in after.commands {
      var i :| 0 <= i < |after.commands| && after.commands[i] == StopSent(id);
      assert CommandOk(after, after.commands[i]);
    }
  }

  /** One continuation group never has two generations whose end is unproven. */
  lemma OneUnresolvedPerGroup(actions: seq<Action>, group: Option<string>, a: SessionId, b: SessionId)
    requires Given(group)
    requires Unresolved(Run(EMPTY, actions), a, group) && Unresolved(Run(EMPTY, actions), b, group)
    ensures a == b
  {
    RunKeepsInv(actions);
  }

  /** An active generation shows the conversation it was opened for, a closed one holds the
      proof that its provider closed the native owner, and only the operations that are
      still entitled to commit leave a generation opening or closing. */
  lemma PhasesAreJustified(actions: seq<Action>, id: SessionId)
    requires id in Run(EMPTY, actions).records
    ensures var after := Run(EMPTY, actions);
            var record := after.records[id];
            && (record.phase.Active? ==> record.configured.Some? && IsShown(record.configured.value, record.payload))
            && (record.phase.Closed? ==> record.exited.Some? && IsExitProof(record.exited.value, record.payload))
            && (record.phase.Opening? || record.phase.Closing?
                <==> exists token :: Owns(after, token) && after.attempts[token].session == id)
            && (forall token, other | Owns(after, token) && Owns(after, other)
                  && after.attempts[token].session == id == after.attempts[other].session :: token == other)
  {
    RunKeepsInv(actions);
    var after := Run(EMPTY, actions);
    assert RecordOk(id, after.records[id], id in after.mutations);
    if id in after.mutations {
      assert OwnerOk(after, id) && Owns(after, after.mutations[id]);
    }
  }

  predicate IsClosed(r: Registry, id: SessionId) { id in r.records && r.records[id].phase.Closed? }

  /** Once closed, a record never changes again. */
  lemma {:induction false} ClosedIsFinal(before: seq<Action>, later: seq<Action>, id: SessionId)
    requires IsClosed(Run(EMPTY, before), id)
    ensures IsClosed(Run(EMPTY, before + later), id)
    ensures Run(EMPTY, before + later).records[id] == Run(EMPTY, before).records[id]
    decreases |later|
  {
    hide RecordOk, OwnerOk, Unresolved, IsExitProof, RecordsOk, CommandsOk, Inv;
    if later == [] {
      assert before + later == before;
    } else {
      var n, all := |later| - 1, before + later;
      ClosedIsFinal(before, later[..n], id);
      assert all[..|all| - 1] == before + later[..n] && all[|all| - 1] == later[n];
      var r := Run(EMPTY, before + later[..n]);
      RunKeepsInv(before + later[..n]);
      StepKeepsInv(r, later[n]);
      if later[n].DoBeginOpen? {
      } else {
        assert RecordAdvances(r.records[id], Step(r, later[n]).records[id]);
      }
    }
  }

  lemma DoubtClosesNothing(r: Registry, id: SessionId, other: SessionId)
    ensures IsClosed(Doubt(r, id), other) <==> IsClosed(r, other)
  {}

  lemma OpenClosesNothing(r: Registry, token: Token, observed: Event, latest: Option<Event>, id: SessionId)
    requires !IsClosed(r, id)
    ensures !IsClosed(CommitOpen(r, token, observed, latest), id)
  {
    hide Ready, NativeChanged, IsLatest;
  }

  lemma OtherStepsCloseNothing(r: Registry, a: Action, id: SessionId)
    requires !a.DoCommitClose? && !IsClosed(r, id)
    ensures !IsClosed(Step(r, a), id)
  {
    hide Doubt, MayOpen, MayClose, IsNews, CommitOpen;
    match a
    case DoCommitOpen(token, observed, latest) => OpenClosesNothing(r, token, observed, latest, id);
    case DoFail(token) => if Owns(r, token) { DoubtClosesNothing(r, r.attempts[token].session, id); }
    case DoAbort(token) => if Owns(r, token) { DoubtClosesNothing(r, r.attempts[token].session, id); }
    case DoObserve(e) => DoubtClosesNothing(r.(positions := r.positions[e.session := e.sequence]), e.session, id);
    case _ =>
  }

  // ---------- What the operations achieve ----------

  /** The configured event names the native conversation. */
  predicate NamesConversation(e: Event) { e.conversationReady && e.nativeReference.Some? }

  /** What an open waits for: a configured event of its session and profile that names the
      conversation, unless it asked only for the configuration. */
  predicate IsAwaited(e: Event, payload: Payload, readiness: Readiness) {
    && e.session == payload.session && e.kind == Configured && e.profile == payload.profile
    && (readiness != ConfiguredOnly ==> NamesConversation(e))
  }

  predicate IsLater(e: Event, than: Event) {
    e.session == than.session && e.sequence >= than.sequence && e.kind == Configured && e.profile == than.profile && NamesConversation(e)
  }

  /** The operation ends: only its record changes, and it has no authority any more. */
  predicate Ends(r: Registry, after: Registry, token: Token, id: SessionId, record: Record) {
    after == r.(records := r.records[id := record], mutations := r.mutations - {id}, attempts := r.attempts - {token})
  }

  /** In every reachable registry, an open that still owns its record and has what it waits for
      stores that event, or the later readiness when there is one, and ends: active when the
      event names the conversation expected, or any where none is; reserved when it names none;
      and unconfirmed when it names another. */
  lemma OpensSettle(actions: seq<Action>, token: Token, id: SessionId, readiness: Readiness, observed: Event, latest: Option<Event>)
    requires var r := Run(EMPTY, actions);
             && token in r.attempts && r.attempts[token] == OpenAttempt(id, readiness, true) && id in r.mutations && r.mutations[id] == token
             && id in r.records && IsAwaited(observed, r.records[id].payload, readiness) && (latest.Some? ==> IsLater(latest.value, observed))
    ensures var r := Run(EMPTY, actions);
            var after, record := Step(r, DoCommitOpen(token, observed, latest)), r.records[id];
            var shown := if latest.Some? then latest.value else observed;
            var expected := record.payload.expectedNative;
            var phase := if !NamesConversation(shown) then Reserved
                         else if expected.None? || expected.value == "" || shown.nativeReference == expected then Active else Unconfirmed;
            record.phase == Opening && Ends(r, after, token, id, record.(configured := Some(shown), phase := phase))
  {
    RunKeepsInv(actions);
    var r := Run(EMPTY, actions);
    assert OwnerOk(r, id) && RecordOk(id, r.records[id], true);
    hide Run, Inv, RecordsOk, OwnersOk, GroupsOk, CommandsOk;
  }

  /** A close that still owns its record and has its exit proof ends closed, with that proof. */
  lemma ClosesSettle(actions: seq<Action>, token: Token, id: SessionId, observed: Event)
    requires var r := Run(EMPTY, actions);
             && token in r.attempts && r.attempts[token] == CloseAttempt(id, true) && id in r.mutations && r.mutations[id] == token
             && id in r.records && observed.session == id && observed.kind == Exited && observed.ownerClosed
             && observed.provider == r.records[id].payload.provider
    ensures var r := Run(EMPTY, actions);
            var after := Step(r, DoCommitClose(token, observed));
            r.records[id].phase == Closing && Ends(r, after, token, id, r.records[id].(phase := Closed, exited := Some(observed)))
  {
    RunKeepsInv(actions);
    var r := Run(EMPTY, actions);
    assert OwnerOk(r, id) && RecordOk(id, r.records[id], true);
    hide Run, Inv, RecordsOk, OwnersOk, GroupsOk, CommandsOk;
  }

  /** Committing anything else than an awaited event changes nothing, and committing it without
      authority only ends the attempt. */
  lemma OnlyAwaitedOpens(actions: seq<Action>, token: Token, observed: Event, latest: Option<Event>)
    ensures var r := Run(EMPTY, actions);
            var after := Step(r, DoCommitOpen(token, observed, latest));
            if token in r.attempts && r.attempts[token].OpenAttempt? && r.attempts[token].sent && r.attempts[token].session in r.records
               && IsAwaited(observed, r.records[r.attempts[token].session].payload, r.attempts[token].readiness)
               && (latest.Some? ==> IsLater(latest.value, observed))
            then Owns(r, token) || after == r.(attempts := r.attempts - {token})
            else after == r
  {
    RunKeepsInv(actions);
    var r := Run(EMPTY, actions);
    if token in r.attempts && r.attempts[token].session in r.records {
      var id := r.attempts[token].session;
      assert RecordOk(id, r.records[id], id in r.mutations);
    }
    hide Run, Inv, RecordsOk, OwnersOk, GroupsOk, CommandsOk, Opened;
  }

  lemma OnlyProofEndsClose(actions: seq<Action>, token: Token, observed: Event)
    ensures var r := Run(EMPTY, actions);
            var after := Step(r, DoCommitClose(token, observed));
            if token in r.attempts && r.attempts[token].CloseAttempt? && r.attempts[token].sent && r.attempts[token].session in r.records
               && observed.session == r.attempts[token].session && observed.kind == Exited && observed.ownerClosed
               && observed.provider == r.records[observed.session].payload.provider
            then Owns(r, token) || after == r.(attempts := r.attempts - {token})
            else after == r
  {
    RunKeepsInv(actions);
    var r := Run(EMPTY, actions);
    if token in r.attempts && r.attempts[token].session in r.records {
      var id := r.attempts[token].session;
      assert RecordOk(id, r.records[id], id in r.mutations);
    }
    hide Run, Inv, RecordsOk, OwnersOk, GroupsOk, CommandsOk;
  }

  /** One generation after its continuity was lost, or its operation failed. */
  function LeftInDoubt(record: Record): Record { if record.phase == Closed then record else record.(phase := Unconfirmed) }

  /** An operation that is aborted leaves its generation in doubt and has no authority any more;
      one that fails also ends. */
  lemma AbortsSettle(actions: seq<Action>, token: Token, id: SessionId)
    requires var r := Run(EMPTY, actions); token in r.attempts && r.attempts[token].session == id && id in r.mutations && r.mutations[id] == token
    ensures var r := Run(EMPTY, actions);
            && id in r.records && r.records[id].phase != Closed
            && Step(r, DoAbort(token)) == r.(records := r.records[id := r.records[id].(phase := Unconfirmed)], mutations := r.mutations - {id})
            && Step(r, DoFail(token)) == Step(r, DoAbort(token)).(attempts := r.attempts - {token})
  {
    RunKeepsInv(actions);
    var r := Run(EMPTY, actions);
    assert OwnerOk(r, id) && RecordOk(id, r.records[id], true);
    hide Run, Inv, RecordsOk, OwnersOk, GroupsOk, CommandsOk;
  }

  /** Lost continuity leaves every generation it concerns in doubt and takes its authority away,
      and changes no other. */
  lemma LossesSettle(r: Registry, which: Option<SessionId>)
    requires r.subscribed
    ensures var lost := Step(r, DoLose(which));
            && lost == r.(records := lost.records, mutations := lost.mutations) && lost.records.Keys == r.records.Keys
            && (forall id | id in r.records :: lost.records[id] == if which.None? || which.value in ["", id] then LeftInDoubt(r.records[id]) else r.records[id])
            && (forall id | id in lost.mutations :: id in r.mutations && lost.mutations[id] == r.mutations[id])
            && (forall id | id in r.mutations ::
                  id in lost.mutations <==> id !in r.records || r.records[id].phase == Closed || !(which.None? || which.value in ["", id]))
  {}

  /** A lost connection is a loss of all, and the last; disposal also takes all authority away,
      and for good. */
  lemma EndsSettle(r: Registry, which: Option<SessionId>)
    ensures Step(r, DoDisconnect) == Step(r, DoLose(None)).(subscribed := false)
    ensures Step(r, DoDispose)
         == r.(disposed := true, subscribed := false, mutations := map[], records := map id | id in r.records :: LeftInDoubt(r.records[id]))
    ensures !r.subscribed ==> Step(r, DoLose(which)) == r
  {}

  predicate IsSettled(record: Record) { record.phase == Reserved || record.phase == Active }

  /** A settled record is shown to be ready again. */
  predicate ShowsReady(record: Record, e: Event) {
    IsSettled(record) && e.kind == Configured && e.profile == record.payload.profile && NamesConversation(e)
  }

  /** An exit or a lost owner leaves a record in doubt unless it is closing, and a readiness does
      that names another conversation than was expected, or than an active one had. */
  predicate LeavesInDoubt(record: Record, e: Event) {
    var expected := record.payload.expectedNative;
    || ((e.kind == Exited || e.kind == OwnerLost) && record.phase != Closing)
    || (ShowsReady(record, e)
        && ((expected.Some? && expected.value != "" && expected != e.nativeReference)
            || (record.phase == Active && record.configured.Some? && record.configured.value.nativeReference != e.nativeReference)))
  }

  function Observed(record: Record, e: Event): Record {
    if LeavesInDoubt(record, e) then record.(phase := Unconfirmed)
    else if ShowsReady(record, e) then record.(phase := Active, configured := Some(e))
    else record
  }

  /** A subscribed registry takes an event once, in the order of its session; it changes only
      that session's record, and takes its authority away when the record is left in doubt. */
  lemma ObservationsSettle(actions: seq<Action>, e: Event)
    ensures var r := Run(EMPTY, actions);
            var after, id := Step(r, DoObserve(e)), e.session;
            var seen := if id in r.positions then r.positions[id] else 0;
            if !r.subscribed || id !in r.records || r.records[id].phase == Closed || e.sequence <= seen then after == r
            else
              after == r.(positions := r.positions[id := e.sequence], records := r.records[id := Observed(r.records[id], e)],
                          mutations := if LeavesInDoubt(r.records[id], e) then r.mutations - {id} else r.mutations)
  {
    RunKeepsInv(actions);
    var r := Run(EMPTY, actions);
    if e.session in r.records { assert RecordOk(e.session, r.records[e.session], e.session in r.mutations); }
    hide Run, Inv, RecordsOk, OwnersOk, GroupsOk, CommandsOk;
    ObservationSettles(r, e);
  }

  lemma ObservationSettles(r: Registry, e: Event)
    requires e.session in r.records && r.records[e.session].phase == Active ==> r.records[e.session].configured.Some?
    ensures var id := e.session;
            var seen := if id in r.positions then r.positions[id] else 0;
            if !r.subscribed || id !in r.records || r.records[id].phase == Closed || e.sequence <= seen then ObserveStep(r, e) == r
            else
              ObserveStep(r, e) == r.(positions := r.positions[id := e.sequence], records := r.records[id := Observed(r.records[id], e)],
                                      mutations := if LeavesInDoubt(r.records[id], e) then r.mutations - {id} else r.mutations)
  {
    if e.session in r.records { assert r.records[e.session := r.records[e.session]] == r.records; }
  }

  /** An open begins exactly when the registry is in use and not full, the payload starts no
      turn, its session is new and its continuation group has no generation that is not closed;
      it then holds the only authority over its new record. */
  lemma OpensBegin(actions: seq<Action>, input: Payload, readiness: Readiness, aborted: bool, sent: bool)
    ensures var r := Run(EMPTY, actions);
            var after := Step(r, DoBeginOpen(input, readiness, aborted, sent));
            if r.disposed || aborted || readiness == Undeclared || input.firstTurn || input.profile.None? || input.profile.value == ""
               || input.session in r.records || |r.records| >= 4096
               || (input.group.Some? && input.group.value != "" && exists id :: id in r.records && r.records[id].payload.group == input.group
                                                                              && r.records[id].phase != Closed)
            then after == r
            else
              && after.records == r.records[input.session := Record(input, Opening, false, None, None)]
              && r.issued !in r.attempts && after.attempts == r.attempts[r.issued := OpenAttempt(input.session, readiness, sent)]
              && after.mutations == r.mutations[input.session := r.issued] && after.issued == r.issued + 1
              && after.commands == r.commands + (if sent then [StartSent(input.session)] else [])
              && (after.positions, after.disposed, after.subscribed) == (r.positions, r.disposed, r.subscribed)
  {
    RunKeepsInv(actions);
    var r := Run(EMPTY, actions);
    assert r.commands + [] == r.commands;
    hide Run, RecordsOk, GroupsOk, CommandsOk, OwnerOk;
  }

  /** A close begins exactly when its generation is neither closed, nor opening or closing, and
      no close of it was attempted before. */
  lemma ClosesBegin(actions: seq<Action>, id: SessionId, aborted: bool, sent: bool)
    ensures var r := Run(EMPTY, actions);
            var after := Step(r, DoBeginClose(id, aborted, sent));
            if r.disposed || aborted || id !in r.records || r.records[id].closeAttempted
               || !(r.records[id].phase == Reserved || r.records[id].phase == Active || r.records[id].phase == Unconfirmed)
            then after == r
            else
              && after.records == r.records[id := r.records[id].(phase := Closing, closeAttempted := true)]
              && r.issued !in r.attempts && after.attempts == r.attempts[r.issued := CloseAttempt(id, sent)]
              && after.mutations == r.mutations[id := r.issued] && after.issued == r.issued + 1
              && after.commands == r.commands + (if sent then [StopSent(id)] else [])
              && (after.positions, after.disposed, after.subscribed) == (r.positions, r.disposed, r.subscribed)
  {
    RunKeepsInv(actions);
    var r := Run(EMPTY, actions);
    assert r.commands + [] == r.commands;
    hide Run, RecordsOk, GroupsOk, CommandsOk, OwnerOk;
  }

  lemma RunsOn(actions: seq<Action>, a: Action)
    ensures Run(EMPTY, actions + [a]) == Step(Run(EMPTY, actions), a)
  {
    assert (actions + [a])[..|actions|] == actions;
  }

  /** From every reachable registry a new generation can be opened to the conversation expected, */
  lemma GenerationsOpen(actions: seq<Action>, input: Payload, readiness: Readiness, shown: Event)
    requires var r := Run(EMPTY, actions); !r.disposed && MayOpen(r, input, readiness)
    requires IsAwaited(shown, input, readiness) && NamesConversation(shown)
    requires Given(input.expectedNative) ==> shown.nativeReference == input.expectedNative
    ensures var r := Run(EMPTY, actions);
            var after := Run(EMPTY, actions + [DoBeginOpen(input, readiness, false, true)] + [DoCommitOpen(r.issued, shown, None)]);
            && after.records == r.records[input.session := Record(input, Active, false, Some(shown), None)]
            && after.commands == r.commands + [StartSent(input.session)] && !after.disposed
  {
    var r, a := Run(EMPTY, actions), DoBeginOpen(input, readiness, false, true);
    OpensBegin(actions, input, readiness, false, true);
    RunsOn(actions, a);
    RunsOn(actions + [a], DoCommitOpen(r.issued, shown, None));
    hide Run, Step;
    OpensSettle(actions + [a], r.issued, input.session, readiness, shown, None);
    Overwritten(r.records, input.session, Record(input, Opening, false, None, None), Record(input, Active, false, Some(shown), None));
  }

  lemma Overwritten(records: map<SessionId, Record>, id: SessionId, before: Record, after: Record)
    ensures records[id := before][id := after] == records[id := after]
  {}

  /** and every generation that is open and was not closed before can be closed, with its proof. */
  lemma GenerationsClose(actions: seq<Action>, id: SessionId, exit: Event)
    requires var r := Run(EMPTY, actions);
             && !r.disposed && id in r.records && !r.records[id].closeAttempted
             && (r.records[id].phase == Reserved || r.records[id].phase == Active || r.records[id].phase == Unconfirmed)
             && exit.session == id && exit.kind == Exited && exit.ownerClosed && exit.provider == r.records[id].payload.provider
    ensures var r := Run(EMPTY, actions);
            var after := Run(EMPTY, actions + [DoBeginClose(id, false, true)] + [DoCommitClose(r.issued, exit)]);
            && after.records == r.records[id := r.records[id].(phase := Closed, closeAttempted := true, exited := Some(exit))]
            && after.commands == r.commands + [StopSent(id)]
  {
    var r, c := Run(EMPTY, actions), DoBeginClose(id, false, true);
    ClosesBegin(actions, id, false, true);
    RunsOn(actions, c);
    RunsOn(actions + [c], DoCommitClose(r.issued, exit));
    hide Run, Step;
    ClosesSettle(actions + [c], r.issued, id, exit);
    Overwritten(r.records, id, r.records[id].(phase := Closing, closeAttempted := true),
                r.records[id].(phase := Closed, closeAttempted := true, exited := Some(exit)));
  }

  /** The only step that closes a generation is a close that still owns it and has its proof. */
  lemma OnlyProofCloses(actions: seq<Action>, a: Action, id: SessionId)
    requires var r := Run(EMPTY, actions); !IsClosed(r, id) && IsClosed(Step(r, a), id)
    ensures var r := Run(EMPTY, actions);
            && a.DoCommitClose? && Owns(r, a.token) && r.attempts[a.token] == CloseAttempt(id, true)
            && a.observed.session == id && a.observed.kind == Exited && a.observed.ownerClosed
            && a.observed.provider == r.records[id].payload.provider && r.records[id].phase == Closing
  {
    var r := Run(EMPTY, actions);
    if !a.DoCommitClose? {
      OtherStepsCloseNothing(r, a, id);
    } else {
      RunKeepsInv(actions);
    }
  }

  /** An operation that has lost its authority, to an abort, a contradicting observation, a
      lost connection, a disposal or a later operation, */
  predicate Fenced(r: Registry, token: Token) { token < r.issued && !Owns(r, token) }

  /** Authority is only taken away, or given to a new operation. */
  predicate GivesNothingBack(r: Registry, after: Registry) {
    && after.issued >= r.issued
    && (forall id | id in after.mutations :: after.mutations[id] >= r.issued || (id in r.mutations && r.mutations[id] == after.mutations[id]))
    && (forall token | token in after.attempts :: token >= r.issued || (token in r.attempts && r.attempts[token] == after.attempts[token]))
  }

  lemma OthersGiveNothingBack(r: Registry, a: Action)
    requires !a.DoBeginOpen? && !a.DoBeginClose?
    ensures GivesNothingBack(r, Step(r, a))
  {
    hide CommitOpen, CommitClose, ObserveStep, Revoked, Doubted;
    match a
    case DoCommitOpen(token, observed, latest) => CommitOpenGivesNothingBack(r, token, observed, latest);
    case DoCommitClose(token, observed) => CommitCloseGivesNothingBack(r, token, observed);
    case DoObserve(e) => ObserveGivesNothingBack(r, e);
    case _ =>
  }

  lemma CommitOpenGivesNothingBack(r: Registry, token: Token, observed: Event, latest: Option<Event>)
    ensures GivesNothingBack(r, CommitOpen(r, token, observed, latest))
  {
    hide NativeChanged, IsLatest, Doubted;
  }

  lemma CommitCloseGivesNothingBack(r: Registry, token: Token, observed: Event)
    ensures GivesNothingBack(r, CommitClose(r, token, observed))
  {}

  lemma ObserveGivesNothingBack(r: Registry, e: Event)
    ensures GivesNothingBack(r, ObserveStep(r, e))
  {
    hide Step, ConflictsWith, Owns;
    if r.subscribed && IsNews(r, e) { hide ContinuesConversation, ConflictsWith, Doubted; }
  }

  /** never gets it back, */
  lemma FencedStaysFenced(r: Registry, a: Action, token: Token)
    requires Fenced(r, token)
    ensures Fenced(Step(r, a), token)
  {
    if !a.DoBeginOpen? && !a.DoBeginClose? { OthersGiveNothingBack(r, a); }
    hide Step;
  }

  predicate ChangesNothing(r: Registry, after: Registry) {
    after.records == r.records && after.mutations == r.mutations && after.commands == r.commands
  }

  lemma FencedCommitsNothing(r: Registry, token: Token, observed: Event, latest: Option<Event>)
    ensures Fenced(r, token) ==>
              ChangesNothing(r, CommitOpen(r, token, observed, latest)) && ChangesNothing(r, CommitClose(r, token, observed))
  {}

  /** and changes no record and sends nothing, however long it stays suspended. */
  lemma {:induction false} FencedNeverCommits(before: seq<Action>, later: seq<Action>, token: Token, observed: Event, latest: Option<Event>)
    requires Fenced(Run(EMPTY, before), token)
    ensures var r := Run(EMPTY, before + later);
            && Fenced(r, token)
            && ChangesNothing(r, CommitOpen(r, token, observed, latest))
            && ChangesNothing(r, CommitClose(r, token, observed))
    decreases |later|
  {
    hide Step, CommitOpen, CommitClose, Fenced, Inv;
    FencedCommitsNothing(Run(EMPTY, before + later), token, observed, latest);
    if later == [] {
      assert before + later == before;
    } else {
      var n, all := |later| - 1, before + later;
      FencedNeverCommits(before, later[..n], token, observed, latest);
      assert all[..|all| - 1] == before + later[..n] && all[|all| - 1] == later[n];
      FencedStaysFenced(Run(EMPTY, before + later[..n]), later[n], token);
    }
  }

  predicate IsUnconfirmed(r: Registry, id: SessionId) { id in r.records && r.records[id].phase.Unconfirmed? }

  /** What fences: an abort, a disposal, lost continuity, and an exit or a lost owner seen
      while opening. */
  lemma WhatFences(actions: seq<Action>, token: Token, e: Event)
    requires Owns(Run(EMPTY, actions), token)
    ensures var r := Run(EMPTY, actions);
            var id := r.attempts[token].session;
            && FencesAndDoubts(r, DoAbort(token), token, id)
            && FencesAndDoubts(r, DoDispose, token, id)
            && (r.subscribed ==> FencesAndDoubts(r, DoLose(None), token, id) && FencesAndDoubts(r, DoDisconnect, token, id))
            && (EndsWhileOpening(r, id, e) ==> FencesAndDoubts(r, DoObserve(e), token, id))
  {
    hide FencesAndDoubts;
    var r := Run(EMPTY, actions);
    RunKeepsInv(actions);
    var id := r.attempts[token].session;
    assert OwnerOk(r, id) && RecordOk(id, r.records[id], true);
    hide Inv, RecordsOk, OwnersOk, GroupsOk, CommandsOk;
    AbortFences(r, token);
    DisposalFences(r, token);
    if r.subscribed { LossFences(r, token); }
    if EndsWhileOpening(r, id, e) { EndFences(r, token, e); }
  }

  /** A new exit or lost owner of a session that is still opening. */
  predicate EndsWhileOpening(r: Registry, id: SessionId, e: Event) {
    r.subscribed && e.session == id && (e.kind.Exited? || e.kind.OwnerLost?) && IsNews(r, e) && r.records[id].phase.Opening?
  }

  predicate IsLive(r: Registry, token: Token) {
    Owns(r, token) && token < r.issued && var id := r.attempts[token].session; id in r.records && !r.records[id].phase.Closed?
  }

  lemma AbortFences(r: Registry, token: Token)
    requires IsLive(r, token)
    ensures FencesAndDoubts(r, DoAbort(token), token, r.attempts[token].session)
  {}

  lemma DisposalFences(r: Registry, token: Token)
    requires IsLive(r, token)
    ensures FencesAndDoubts(r, DoDispose, token, r.attempts[token].session)
  {}

  lemma LossFences(r: Registry, token: Token)
    requires IsLive(r, token) && r.subscribed
    ensures FencesAndDoubts(r, DoLose(None), token, r.attempts[token].session)
    ensures FencesAndDoubts(r, DoDisconnect, token, r.attempts[token].session)
  {}

  lemma EndFences(r: Registry, token: Token, e: Event)
    requires IsLive(r, token) && EndsWhileOpening(r, r.attempts[token].session, e)
    ensures FencesAndDoubts(r, DoObserve(e), token, r.attempts[token].session)
  {}

  predicate FencesAndDoubts(r: Registry, a: Action, token: Token, id: SessionId) {
    Fenced(Step(r, a), token) && IsUnconfirmed(Step(r, a), id)
  }

  predicate SettledByDisposal(r: Registry) {
    r.disposed && !r.subscribed && r.mutations == map[] && forall id | id in r.records :: r.records[id].phase.Closed? || r.records[id].phase.Unconfirmed?
  }

  /** After disposal nothing is sent and no record changes, whatever was still suspended. */
  lemma {:induction false} DisposalIsFinal(before: seq<Action>, later: seq<Action>)
    ensures var disposed := Step(Run(EMPTY, before), DoDispose);
            var after := Run(disposed, later);
            SettledByDisposal(after) && after.records == disposed.records && after.commands == disposed.commands
    decreases |later|
  {
    if later != [] {
      DisposalIsFinal(before, later[..|later| - 1]);
      DisposedStep(Run(Step(Run(EMPTY, before), DoDispose), later[..|later| - 1]), later[|later| - 1]);
    }
  }

  lemma DisposedStep(r: Registry, a: Action)
    requires SettledByDisposal(r)
    ensures var after := Step(r, a); SettledByDisposal(after) && after.records == r.records && after.commands == r.commands
  {
    if a.DoDispose? { assert Dispose(r).records == r.records; }
  }

  // ---------- The registry as the object the SDK holds ----------

  class HcpNativeSessions {
    var records: map<SessionId, Record>
    var mutations: map<SessionId, Token>
    var positions: map<SessionId, int>
    var disposed: bool
    var subscribed: bool
    var issued: nat
    var attempts: map<Token, Attempt>
    ghost var commands: seq<Command>

    ghost function State(): Registry
      reads this
    {
      Registry(records, mutations, positions, disposed, subscribed, issued, attempts, commands)
    }

    constructor ()
      ensures State() == EMPTY
    {
      records, mutations, positions := map[], map[], map[];
      disposed, subscribed, issued, attempts, commands := false, true, 0, map[], [];
    }

    method Claim(id: SessionId, attempt: Attempt)
      modifies this`mutations, this`issued, this`attempts
      ensures mutations == old(mutations)[id := old(issued)] && issued == old(issued) + 1
      ensures attempts == old(attempts)[old(issued) := attempt]
    {
      mutations, attempts, issued := mutations[id := issued], attempts[issued := attempt], issued + 1;
    }

    method BeginOpen(input: Payload, readiness: Readiness, aborted: bool, sent: bool) returns (token: Option<Token>)
      modifies this
      ensures State() == Step(old(State()), DoBeginOpen(input, readiness, aborted, sent))
      ensures token.Some? ==> Owns(State(), token.value)
    {
      if disposed || aborted { return None; }
      if !Given(input.profile) || input.firstTurn || readiness.Undeclared? { return None; }
      if input.session in records || |records| >= CAPACITY { return None; }
      if Given(input.group) && !GroupIsFree(records, input.group) { return None; }
      records := records[input.session := Record(input, Opening, false, None, None)];
      token := Some(issued);
      Claim(input.session, OpenAttempt(input.session, readiness, sent));
      if sent { commands := commands + [StartSent(input.session)]; }
    }

    method Release(token: Token)
      modifies this
      ensures State() == Drop(if Owns(old(State()), token) then
                                old(State()).(mutations := old(mutations) - {old(attempts)[token].session})
                              else old(State()), token)
    {
      if token in attempts && attempts[token].session in mutations && mutations[attempts[token].session] == token {
        mutations := mutations - {attempts[token].session};
      }
      attempts := attempts - {token};
    }

    method CommitOpen(token: Token, observed: Event, latest: Option<Event>)
      modifies this
      ensures State() == Step(old(State()), DoCommitOpen(token, observed, latest))
      ensures !Owns(old(State()), token) ==> records == old(records)
    {
      if !EndsOpenWait(attempts, records, token, observed) || !IsLatest(latest, observed) { return; }
      var id := attempts[token].session;
      if id !in mutations || mutations[id] != token { Release(token); return; }
      var record, configured := records[id], if latest.Some? then latest.value else observed;
      records := records[id := record.(configured := Some(configured))];
      if Ready(configured, record.payload.profile) && NativeChanged(record.payload, configured) {
        FenceAttempt(token);
      } else {
        records := records[id := records[id].(phase := if Ready(configured, record.payload.profile) then Active else Reserved)];
      }
      Release(token);
    }

    method BeginClose(id: SessionId, aborted: bool, sent: bool) returns (token: Option<Token>)
      modifies this
      ensures State() == Step(old(State()), DoBeginClose(id, aborted, sent))
      ensures token.Some? ==> Owns(State(), token.value)
    {
      if disposed || aborted || id !in records { return None; }
      var record := records[id];
      if record.phase.Closed? { return None; }
      if record.phase.Opening? || record.phase.Closing? || record.closeAttempted { return None; }
      records := records[id := record.(phase := Closing, closeAttempted := true)];
      token := Some(issued);
      Claim(id, CloseAttempt(id, sent));
      if sent { commands := commands + [StopSent(id)]; }
    }

    method CommitClose(token: Token, observed: Event)
      modifies this
      ensures State() == Step(old(State()), DoCommitClose(token, observed))
    {
      if !EndsCloseWait(attempts, records, token, observed) { return; }
      var id := attempts[token].session;
      if id in mutations && mutations[id] == token {
        records := records[id := records[id].(phase := Closed, exited := Some(observed))];
      }
      Release(token);
    }

    /** The abort listener, and the first thing a failed operation does. */
    method FenceAttempt(token: Token)
      modifies this
      ensures State() == Step(old(State()), DoAbort(token))
    {
      if token !in attempts { return; }
      var id := attempts[token].session;
      if id !in mutations || mutations[id] != token { return; }
      DoubtRecord(id);
    }

    method DoubtRecord(id: SessionId)
      modifies this
      ensures State() == Doubt(old(State()), id)
    {
      if id in records && !records[id].phase.Closed? { records := records[id := records[id].(phase := Unconfirmed)]; }
      mutations := mutations - {id};
    }

    method Fail(token: Token)
      modifies this
      ensures State() == Step(old(State()), DoFail(token))
    {
      FenceAttempt(token);
      attempts := attempts - {token};
    }

    method Observe(e: Event)
      modifies this
      ensures State() == ObserveStep(old(State()), e)
    {
      hide ConflictsWith, Doubt, Owns, NativeChanged;
      if !subscribed || e.session !in records { return; }
      var record := records[e.session];
      var position := if e.session in positions then positions[e.session] else 0;
      if record.phase.Closed? || e.sequence <= position { return; }
      positions := positions[e.session := e.sequence];
      if e.kind.Exited? && !record.phase.Closing? { DoubtRecord(e.session); return; }
      if (record.phase.Reserved? || record.phase.Active?) && Ready(e, record.payload.profile) {
        if ConflictsWith(record, e) { DoubtRecord(e.session); return; }
        records := records[e.session := record.(configured := Some(e), phase := Active)];
      }
      if e.kind.OwnerLost? && !record.phase.Closing? { DoubtRecord(e.session); }
    }

    /** The loop that doubts every concerned record and revokes its authority. */
    method DoubtConcerned(which: Option<SessionId>)
      modifies this`records, this`mutations
      ensures records.Keys == old(records).Keys
      ensures forall id | id in records :: records[id] == if Concerns(which, id) then Doubted(old(records)[id]) else old(records)[id]
      ensures forall id :: id in mutations <==> id in old(mutations) && !Revoked(old(records), which, id)
      ensures forall id | id in mutations :: mutations[id] == old(mutations)[id]
    {
      var rest := records.Keys;
      while rest != {}
        invariant rest <= records.Keys == old(records).Keys
        invariant forall id | id in records :: records[id] == (if id !in rest && Concerns(which, id) then Doubted(old(records)[id]) else old(records)[id])
        invariant forall id :: id in mutations <==> id in old(mutations) && (id !in rest ==> !Revoked(old(records), which, id))
        invariant forall id | id in mutations :: mutations[id] == old(mutations)[id]
        decreases rest
      {
        var id :| id in rest;
        if Concerns(which, id) && !records[id].phase.Closed? {
          records, mutations := records[id := records[id].(phase := Unconfirmed)], mutations - {id};
        }
        rest := rest - {id};
      }
    }

    method Lose(which: Option<SessionId>)
      modifies this`records, this`mutations
      ensures State() == Step(old(State()), DoLose(which))
    {
      if !subscribed { return; }
      DoubtConcerned(which);
      assert records == Step(old(State()), DoLose(which)).records;
      assert mutations == Step(old(State()), DoLose(which)).mutations;
    }

    /** Detaches observation and fences what is outstanding; sends nothing. */
    method Dispose()
      modifies this`disposed, this`subscribed, this`mutations, this`records
      ensures State() == Step(old(State()), DoDispose)
    {
      disposed, subscribed, mutations := true, false, map[];
      DoubtConcerned(None);
      assert records == Step(old(State()), DoDispose).records;
      assert mutations == map[];
    }
  }
}
