/** Account usage reads: at most four collectors at a time, with the slot of a finished one
    handed straight to the longest-waiting read. */
module AccountReads {

  type Id = nat
  type Provider = string

  const SLOTS := 4

  /** Reads wait for a slot, are woken with one, run, and are done until their promise settles.
      `granted` lists the reads in the order they got a slot. */
  datatype State = State(
    active: nat, waiting: seq<Id>, woken: set<Id>, running: set<Id>, done: set<Id>,
    inflight: map<Provider, Id>, owner: map<Id, Provider>, cached: set<Provider>, closed: bool,
    nextId: Id, granted: seq<Id>)

  const START := State(0, [], {}, {}, {}, map[], map[], {}, false, 0, [])

  /** A read of a provider that nothing answers yet; `usable` when it is enabled and has a collector. */
  function Request(s: State, provider: Provider, usable: bool): State {
    if s.closed || !usable || provider in s.cached || provider in s.inflight then s
    else
      var arrived := s.(inflight := s.inflight[provider := s.nextId], owner := s.owner[s.nextId := provider], nextId := s.nextId + 1);
      Acquire(arrived, s.nextId)
  }

  /** A new read takes a free slot or the last place in the queue. */
  function Acquire(s: State, id: Id): State {
    if s.active >= SLOTS then s.(waiting := s.waiting + [id])
    else s.(active := s.active + 1, running := s.running + {id}, granted := s.granted + [id])
  }

  function Release(s: State): State {
    if s.waiting != [] then
      s.(waiting := s.waiting[1..], woken := s.woken + {s.waiting[0]}, granted := s.granted + [s.waiting[0]])
    else s.(active := if s.active > 0 then s.active - 1 else 0)
  }

  /** A woken read goes on: it gives up its slot when the reader was closed meanwhile. */
  function Resume(s: State, id: Id): State {
    if id !in s.woken then s
    else if s.closed then Release(s.(woken := s.woken - {id}, done := s.done + {id}))
    else s.(woken := s.woken - {id}, running := s.running + {id})
  }

  /** The collector returned, failed, timed out or was cancelled. */
  function Collected(s: State, id: Id): State {
    if id !in s.running then s else Release(s.(running := s.running - {id}, done := s.done + {id}))
  }

  /** The read's promise settles: the observation is cached and the read forgotten. */
  function Settle(s: State, id: Id): State {
    if id !in s.done || id !in s.owner then s
    else
      s.(done := s.done - {id}, inflight := s.inflight - {s.owner[id]}, cached := s.cached + {s.owner[id]})
  }

  datatype Action =
    | DoRequest(provider: Provider, usable: bool)
    | DoResume(id: Id)
    | DoCollected(id: Id)
    | DoSettle(id: Id)
    | DoExpire(provider: Provider)
    | DoClose

  function Step(s: State, a: Action): State {
    match a
    case DoRequest(provider, usable) => Request(s, provider, usable)
    case DoResume(id) => Resume(s, id)
    case DoCollected(id) => Collected(s, id)
    case DoSettle(id) => Settle(s, id)
    case DoExpire(provider) => s.(cached := s.cached - {provider})
    case DoClose => s.(closed := true)
  }

  function Run(s: State, actions: seq<Action>): State
    decreases |actions|
  {
    if actions == [] then s else Step(Run(s, actions[..|actions| - 1]), actions[|actions| - 1])
  }

  // ---------- What every run keeps ----------

  predicate IsUnfinished(s: State, id: Id) { id in s.waiting || id in s.woken || id in s.running || id in s.done }

  predicate Ascending(ids: seq<Id>) { forall i, j | 0 <= i < j < |ids| :: ids[i] < ids[j] }

  ghost predicate Inv(s: State) {
    && s.active == |s.woken| + |s.running| && s.active <= SLOTS
    && (s.waiting != [] ==> s.active == SLOTS)
    && s.woken !! s.running && s.woken !! s.done && s.running !! s.done
    && Ascending(s.granted + s.waiting)
    && (forall id | id in s.granted + s.waiting :: id < s.nextId)
    && (forall id | id in s.woken || id in s.running || id in s.done :: id in s.granted)
    && (forall id | IsUnfinished(s, id) :: id in s.owner && s.owner[id] in s.inflight && s.inflight[s.owner[id]] == id)
  }

  lemma ReleaseKeepsInv(s: State, id: Id)
    requires (s.woken + s.running) !! s.done && s.woken !! s.running && Ascending(s.granted + s.waiting)
    requires s.active == |s.woken| + |s.running| + 1 && s.active <= SLOTS && (s.waiting != [] ==> s.active == SLOTS)
    requires forall other | other in s.granted + s.waiting :: other < s.nextId
    requires forall other | other in s.woken || other in s.running || other in s.done :: other in s.granted
    requires forall other | IsUnfinished(s, other) :: other in s.owner && s.owner[other] in s.inflight && s.inflight[s.owner[other]] == other
    ensures Inv(Release(s))
  {
    var after := Release(s);
    if s.waiting != [] {
      var first := s.waiting[0];
      FirstIsNew(s.granted, s.waiting);
      assert after.granted + after.waiting == s.granted + s.waiting;
      assert first in s.granted + s.waiting;
      assert forall other | IsUnfinished(after, other) :: IsUnfinished(s, other);
      assert first !in s.woken && first !in s.running && first !in s.done;
    }
  }

  lemma FirstIsNew(granted: seq<Id>, waiting: seq<Id>)
    requires Ascending(granted + waiting) && waiting != []
    ensures waiting[0] !in granted && waiting[0] !in waiting[1..]
  {
    assert (granted + waiting)[|granted|] == waiting[0];
    forall i | 0 <= i < |granted| ensures granted[i] != waiting[0] { assert (granted + waiting)[i] == granted[i]; }
    forall i | 1 <= i < |waiting| ensures waiting[i] != waiting[0] { assert (granted + waiting)[|granted| + i] == waiting[i]; }
  }

  lemma NextIsNew(s: State)
    requires Inv(s)
    ensures !IsUnfinished(s, s.nextId) && s.nextId !in s.granted && Ascending(s.granted + s.waiting + [s.nextId])
    ensures forall id | id in s.granted + s.waiting + [s.nextId] :: id < s.nextId + 1
  {
    var all := s.granted + s.waiting;
    assert forall id | id in s.granted || id in s.waiting :: id in all;
    assert forall i | 0 <= i < |all| :: all[i] in all;
  }

  lemma RequestKeepsInv(s: State, provider: Provider, usable: bool)
    requires Inv(s)
    ensures Inv(Request(s, provider, usable))
  {
    hide Ascending;
    var after := Request(s, provider, usable);
    if !(s.closed || !usable || provider in s.cached || provider in s.inflight) {
      var id := s.nextId;
      NextIsNew(s);
      if s.active >= SLOTS {
        assert s.granted + s.waiting + [id] == after.granted + after.waiting;
      } else {
        assert s.waiting == [] && s.granted + s.waiting + [id] == after.granted + after.waiting;
      }
      forall other | IsUnfinished(after, other)
        ensures other in after.owner && after.owner[other] in after.inflight && after.inflight[after.owner[other]] == other
      {
        if other != id { assert IsUnfinished(s, other) && s.owner[other] != provider; }
      }
    }
  }

  lemma WokenKeepsInv(s: State, id: Id)
    requires Inv(s) && id in s.woken
    ensures Inv(s.(woken := s.woken - {id}, running := s.running + {id}))
  {
    var after := s.(woken := s.woken - {id}, running := s.running + {id});
    assert forall other :: IsUnfinished(after, other) <==> IsUnfinished(s, other);
  }

  lemma SameReadsKeepInv(s: State, after: State)
    requires Inv(s) && after == s.(cached := after.cached, closed := after.closed)
    ensures Inv(after)
  {
    assert forall other :: IsUnfinished(after, other) <==> IsUnfinished(s, other);
  }

  lemma StepKeepsInv(s: State, a: Action)
    requires Inv(s)
    ensures Inv(Step(s, a))
  {
    hide Inv, Release, Request, Settle;
    match a
    case DoRequest(provider, usable) => RequestKeepsInv(s, provider, usable);
    case DoResume(id) =>
      if id in s.woken {
        if s.closed { LeavingKeepsInv(s, id); LeavesOne(s, id); } else { WokenKeepsInv(s, id); }
      }
    case DoCollected(id) => if id in s.running { LeavingKeepsInv(s, id); LeavesOne(s, id); }
    case DoSettle(id) => SettleKeepsInv(s, id);
    case DoExpire(_) => SameReadsKeepInv(s, Step(s, a));
    case DoClose => SameReadsKeepInv(s, Step(s, a));
  }

  lemma LeavingKeepsInv(s: State, id: Id)
    requires Inv(s) && (id in s.woken || id in s.running)
    ensures Inv(Release(s.(woken := s.woken - {id}, running := s.running - {id}, done := s.done + {id})))
  {
    var left := s.(woken := s.woken - {id}, running := s.running - {id}, done := s.done + {id});
    hide Release, Ascending;
    assert forall other :: IsUnfinished(left, other) <==> IsUnfinished(s, other);
    ReleaseKeepsInv(left, id);
  }

  lemma LeavesOne(s: State, id: Id)
    requires Inv(s)
    ensures id in s.woken ==> s.running - {id} == s.running
    ensures id in s.running ==> s.woken - {id} == s.woken
  {}

  lemma SettleKeepsInv(s: State, id: Id)
    requires Inv(s)
    ensures Inv(Settle(s, id))
  {
    if id in s.done { DoneKeepsInv(s, id); }
  }

  lemma DoneKeepsInv(s: State, id: Id)
    requires Inv(s) && id in s.done
    ensures Inv(Settle(s, id))
  {
    var after := Settle(s, id);
    assert IsUnfinished(s, id);
    forall other | IsUnfinished(after, other)
      ensures other in after.owner && after.owner[other] in after.inflight && after.inflight[after.owner[other]] == other
    {
      assert IsUnfinished(s, other);
      if other == id { WaitersAreNotDone(s, id); }
    }
  }

  lemma WaitersAreNotDone(s: State, id: Id)
    requires Inv(s) && id in s.done
    ensures id !in s.waiting
  {
    var i :| 0 <= i < |s.granted| && s.granted[i] == id;
    forall j | 0 <= j < |s.waiting| ensures s.waiting[j] != id {
      assert (s.granted + s.waiting)[i] == id && (s.granted + s.waiting)[|s.granted| + j] == s.waiting[j];
    }
  }

  lemma {:induction false} RunKeepsInv(actions: seq<Action>)
    ensures Inv(Run(START, actions))
    decreases |actions|
  {
    if actions != [] {
      RunKeepsInv(actions[..|actions| - 1]);
      StepKeepsInv(Run(START, actions[..|actions| - 1]), actions[|actions| - 1]);
    }
  }

  // ---------- What holds of every run ----------

  /** Never more than four slots are held; somebody waits only while all four are; and the
      slots are given in the order of arrival. */
  lemma SlotsAreSound(actions: seq<Action>)
    ensures var s := Run(START, actions);
            && |s.woken + s.running| == s.active <= SLOTS
            && (s.waiting != [] ==> |s.woken + s.running| == SLOTS)
            && Ascending(s.granted + s.waiting)
  {
    RunKeepsInv(actions);
  }

  /** Two unfinished reads are never of one provider. */
  lemma OneReadPerProvider(actions: seq<Action>, a: Id, b: Id)
    requires IsUnfinished(Run(START, actions), a) && IsUnfinished(Run(START, actions), b)
    requires a in Run(START, actions).owner && b in Run(START, actions).owner
    requires Run(START, actions).owner[a] == Run(START, actions).owner[b]
    ensures a == b
  {
    RunKeepsInv(actions);
  }

  function Work(s: State): nat { |s.waiting| + |s.woken| + |s.running| }

  predicate Advances(s: State, a: Action) { (a.DoResume? && a.id in s.woken) || (a.DoCollected? && a.id in s.running) }

  lemma SomeoneAdvances(s: State) returns (a: Action)
    requires Inv(s) && Work(s) > 0
    ensures Advances(s, a)
  {
    if s.woken != {} {
      var id :| id in s.woken;
      a := DoResume(id);
    } else {
      assert s.running != {};
      var id :| id in s.running;
      a := DoCollected(id);
    }
  }

  /** A step after the close starts no collector; the work left shrinks by one exactly when a
      read goes on, and never grows. */
  lemma ClosedStep(s: State, a: Action)
    requires Inv(s) && s.closed
    ensures var after := Step(s, a);
            && after.closed && after.running <= s.running
            && Work(after) == Work(s) - if Advances(s, a) then 1 else 0
  {
    hide Inv, Acquire, IsUnfinished;
    if Advances(s, a) { LeavingLosesOne(s, a.id); }
  }

  lemma RunsOn(actions: seq<Action>, a: Action, more: seq<Action>)
    ensures Run(START, actions + [a]) == Step(Run(START, actions), a)
    ensures actions + [a] + more == actions + ([a] + more)
  {
    assert (actions + [a])[..|actions|] == actions;
  }

  /** Every run can go on after the close, by as many steps as there is work left, to a state
      where nobody waits for a slot or holds one. */
  lemma {:induction false} ClosedReadersDrain(actions: seq<Action>) returns (more: seq<Action>)
    requires Run(START, actions).closed
    ensures |more| == Work(Run(START, actions))
    ensures var end := Run(START, actions + more);
            end.closed && end.waiting == [] && end.woken == {} && end.running == {} && end.active == 0
    decreases Work(Run(START, actions))
  {
    hide Inv, Step, Advances;
    RunKeepsInv(actions);
    var s := Run(START, actions);
    if Work(s) == 0 {
      more := [];
      assert actions + more == actions;
    } else {
      var a := SomeoneAdvances(s);
      ClosedStep(s, a);
      RunsOn(actions, a, []);
      var rest := ClosedReadersDrain(actions + [a]);
      RunsOn(actions, a, rest);
      more := [a] + rest;
    }
  }

  /** However a run goes on after the close, no collector is started and no work is added. */
  lemma {:induction false} NoCollectorAfterClose(actions: seq<Action>, more: seq<Action>)
    requires Run(START, actions).closed
    ensures var s, later := Run(START, actions), Run(START, actions + more);
            later.closed && later.running <= s.running && Work(later) <= Work(s)
    decreases |more|
  {
    hide Step, Inv, Work, Advances;
    if more == [] {
      assert actions + more == actions;
    } else {
      var n, all := |more| - 1, actions + more;
      assert all[..|all| - 1] == actions + more[..n] && all[|all| - 1] == more[n];
      NoCollectorAfterClose(actions, more[..n]);
      RunKeepsInv(actions + more[..n]);
      ClosedStep(Run(START, actions + more[..n]), more[n]);
    }
  }

  lemma LeavingLosesOne(s: State, id: Id)
    requires Inv(s) && (id in s.woken || id in s.running)
    ensures Work(Release(s.(woken := s.woken - {id}, running := s.running - {id}, done := s.done + {id}))) == Work(s) - 1
  {
    if s.waiting != [] {
      FirstIsNew(s.granted, s.waiting);
      assert s.waiting[0] !in s.woken - {id};
    }
  }

  // ---------- Reads come to their end ----------

  /** A request starts a read exactly while the reader is open, the provider can be read, its last
      observation has expired and no read of it is under way; the read then runs at once while
      fewer than four others hold a slot, and otherwise is the last to wait. */
  lemma ReadsBegin(actions: seq<Action>, provider: Provider, usable: bool)
    ensures var s, after := Run(START, actions), Run(START, actions + [DoRequest(provider, usable)]);
            var others := |s.woken + s.running|;
            if s.closed || !usable || provider in s.cached || provider in s.inflight then after == s
            else
              && !IsUnfinished(s, s.nextId) && after.inflight == s.inflight[provider := s.nextId] && s.nextId in after.owner
              && after.owner[s.nextId] == provider && after.nextId == s.nextId + 1
              && (if others < 4 then after.running == s.running + {s.nextId} && after.waiting == s.waiting
                  else after.running == s.running && after.waiting == s.waiting + [s.nextId])
              && after.woken == s.woken && after.done == s.done && after.cached == s.cached && !after.closed
  {
    RunKeepsInv(actions);
    NextIsNew(Run(START, actions));
    RunsOn(actions, DoRequest(provider, usable), []);
  }

  /** A woken read runs unless the reader was closed; a read whose collector returned, or that was
      woken too late, hands its slot to the one that waited longest; and a settled read is
      forgotten, its provider's observation cached. */
  lemma ReadsGoOn(actions: seq<Action>, id: Id)
    ensures var s := Run(START, actions);
            && (id in s.woken ==>
                  var after := Step(s, DoResume(id));
                  if !s.closed then after == s.(woken := s.woken - {id}, running := s.running + {id}) else LeavesTo(s, after, id))
            && (id in s.running ==> LeavesTo(s, Step(s, DoCollected(id)), id))
            && (id in s.done ==>
                  id in s.owner && var provider := s.owner[id];
                  Step(s, DoSettle(id)) == s.(done := s.done - {id}, inflight := s.inflight - {provider}, cached := s.cached + {provider}))
  {
    hide Inv, Step, LeavesTo;
    RunKeepsInv(actions);
    var s := Run(START, actions);
    hide Run;
    if id in s.woken { WokenGoesOn(s, id); }
    if id in s.running { RunningLeaves(s, id); }
    if id in s.done { DoneSettles(s, id); }
  }

  lemma SlotIsHeld(s: State, id: Id)
    requires Inv(s) && (id in s.woken || id in s.running)
    ensures s.active > 0 && s.woken !! s.running
  {}

  lemma WokenGoesOn(s: State, id: Id)
    requires Inv(s) && id in s.woken
    ensures var after := Step(s, DoResume(id));
            if !s.closed then after == s.(woken := s.woken - {id}, running := s.running + {id}) else LeavesTo(s, after, id)
  {
    SlotIsHeld(s, id);
    hide Inv;
    assert s.running - {id} == s.running;
  }

  lemma RunningLeaves(s: State, id: Id)
    requires Inv(s) && id in s.running
    ensures LeavesTo(s, Step(s, DoCollected(id)), id)
  {
    SlotIsHeld(s, id);
    hide Inv;
    assert s.woken - {id} == s.woken;
  }

  lemma DoneSettles(s: State, id: Id)
    requires Inv(s) && id in s.done
    ensures id in s.owner
    ensures Step(s, DoSettle(id)) == s.(done := s.done - {id}, inflight := s.inflight - {s.owner[id]}, cached := s.cached + {s.owner[id]})
  {}

  /** Once its observation has expired a provider is read again; and a closed reader reads no more. */
  lemma ExpiredAreReadAgain(actions: seq<Action>, provider: Provider)
    ensures var s, closed := Run(START, actions), Run(START, actions + [DoClose]);
            var again := Run(START, actions + [DoExpire(provider)] + [DoRequest(provider, true)]);
            && (!s.closed && provider !in s.inflight ==> provider in again.inflight && again.inflight[provider] == s.nextId)
            && (forall other | other != provider :: other in again.cached <==> other in s.cached) && provider !in again.cached
            && closed == s.(closed := true) && Step(closed, DoRequest(provider, true)) == closed
  {
    RunsOn(actions, DoClose, []);
    RunsOn(actions, DoExpire(provider), []);
    RunsOn(actions + [DoExpire(provider)], DoRequest(provider, true), []);
    hide Run;
  }

  predicate LeavesTo(s: State, after: State, id: Id) {
    var woken, running, done := s.woken - {id}, s.running - {id}, s.done + {id};
    if s.waiting == [] then s.active > 0 && after == s.(woken := woken, running := running, done := done, active := s.active - 1)
    else
      after == s.(woken := woken + {s.waiting[0]}, running := running, done := done, waiting := s.waiting[1..], granted := s.granted + [s.waiting[0]])
  }

  function Place(ids: seq<Id>, id: Id): (i: nat)
    requires id in ids
    ensures i < |ids| && ids[i] == id
  {
    if ids[0] == id then 0 else 1 + Place(ids[1..], id)
  }

  /** How far a read is from its end. */
  function Distance(s: State, id: Id): nat
    requires IsUnfinished(s, id)
  {
    if id in s.done then 0 else if id in s.running then 1 else if id in s.woken then 2 else 3 + Place(s.waiting, id)
  }

  /** The step that brings the read nearer: its own, or that of one that holds a slot. */
  lemma NextStep(s: State, id: Id) returns (a: Action)
    requires Inv(s) && IsUnfinished(s, id) && id !in s.done
    ensures Advances(s, a) && (id in s.woken || id in s.running ==> a.id == id)
    ensures var after := Step(s, a);
            && IsUnfinished(after, id) && after.closed == s.closed && after.owner == s.owner
            && (Distance(after, id) < Distance(s, id) || (Distance(after, id) == Distance(s, id) && |after.woken| < |s.woken|))
  {
    if id in s.running {
      a := DoCollected(id);
    } else if id in s.woken {
      a := DoResume(id);
    } else if s.running != {} {
      var other :| other in s.running;
      a := DoCollected(other);
      FirstIsNearer(s, id);
    } else {
      assert s.woken != {};
      var other :| other in s.woken;
      a := DoResume(other);
      FirstIsNearer(s, id);
    }
  }

  lemma FirstIsNearer(s: State, id: Id)
    requires Inv(s) && id in s.waiting
    ensures s.waiting[0] == id || (id in s.waiting[1..] && Place(s.waiting[1..], id) < Place(s.waiting, id))
    ensures s.waiting[0] !in s.woken && s.waiting[0] !in s.running && s.waiting[0] !in s.done
  {
    FirstIsNew(s.granted, s.waiting);
  }

  /** Every run can go on, by steps of the reads that hold slots alone, to the end of any
      unfinished read: nobody waits for a slot for ever. */
  lemma {:induction false} ReadsCanFinish(actions: seq<Action>, id: Id) returns (more: seq<Action>)
    requires IsUnfinished(Run(START, actions), id)
    ensures forall i | 0 <= i < |more| :: more[i].DoResume? || more[i].DoCollected? || more[i] == DoSettle(id)
    ensures var s, end := Run(START, actions), Run(START, actions + more);
            && !IsUnfinished(end, id) && id in s.owner && s.owner[id] in end.cached && s.owner[id] !in end.inflight && end.closed == s.closed
    decreases Distance(Run(START, actions), id), |Run(START, actions).woken|
  {
    hide Step, Advances;
    RunKeepsInv(actions);
    var s := Run(START, actions);
    if id in s.done {
      more := [DoSettle(id)];
      RunsOn(actions, DoSettle(id), []);
      RunKeepsInv(actions + more);
      SettledIsForgotten(s, id);
    } else {
      var a := NextStep(s, id);
      AdvanceIsStep(s, a);
      RunsOn(actions, a, []);
      var rest := ReadsCanFinish(actions + [a], id);
      RunsOn(actions, a, rest);
      more := [a] + rest;
    }
  }

  lemma AdvanceIsStep(s: State, a: Action)
    requires Advances(s, a)
    ensures a.DoResume? || a.DoCollected?
  {}

  lemma SettledIsForgotten(s: State, id: Id)
    requires Inv(s) && id in s.done
    ensures var end := Step(s, DoSettle(id));
            !IsUnfinished(end, id) && id in s.owner && s.owner[id] in end.cached && s.owner[id] !in end.inflight && end.closed == s.closed
  {
    WaitersAreNotDone(s, id);
  }

  // ---------- The reader as an object ----------

  class AccountUsageReader {
    var active: nat
    var waiting: seq<Id>
    var woken: set<Id>
    var running: set<Id>
    var done: set<Id>
    var inflight: map<Provider, Id>
    var owner: map<Id, Provider>
    var cached: set<Provider>
    var closed: bool
    var nextId: Id
    ghost var granted: seq<Id>

    ghost function Value(): State
      reads this
    {
      State(active, waiting, woken, running, done, inflight, owner, cached, closed, nextId, granted)
    }

    constructor ()
      ensures Value() == START
    {
      active, waiting, woken, running, done, inflight := 0, [], {}, {}, {}, map[];
      owner, cached, closed, nextId, granted := map[], {}, false, 0, [];
    }

    method ReadProvider(provider: Provider, usable: bool)
      modifies this
      ensures Value() == Request(old(Value()), provider, usable)
      ensures old(Inv(Value())) ==> Inv(Value())
    {
      hide Acquire, Inv;
      if Inv(Value()) { RequestKeepsInv(Value(), provider, usable); }
      if closed || !usable || provider in cached || provider in inflight { return; }
      var id := nextId;
      inflight, owner, nextId := inflight[provider := id], owner[id := provider], nextId + 1;
      AcquireSlot(id);
    }

    method AcquireSlot(id: Id)
      modifies this`active, this`waiting, this`running, this`granted
      ensures Value() == Acquire(old(Value()), id)
    {
      if active >= SLOTS {
        waiting := waiting + [id];
      } else {
        active, running := active + 1, running + {id};
        granted := granted + [id];
      }
    }

    method ReleaseSlot()
      modifies this`active, this`waiting, this`woken, this`granted
      ensures Value() == Release(old(Value()))
    {
      if waiting != [] {
        var next := waiting[0];
        waiting, woken := waiting[1..], woken + {next};
        granted := granted + [next];
      } else if active > 0 {
        active := active - 1;
      }
    }

    method ResumeRead(id: Id)
      modifies this
      ensures Value() == Step(old(Value()), DoResume(id))
    {
      if id !in woken { return; }
      woken := woken - {id};
      if closed {
        done := done + {id};
        ReleaseSlot();
      } else {
        running := running + {id};
      }
    }

    method FinishCollecting(id: Id)
      modifies this
      ensures Value() == Step(old(Value()), DoCollected(id))
    {
      if id !in running { return; }
      running, done := running - {id}, done + {id};
      ReleaseSlot();
    }

    method SettleRead(id: Id)
      modifies this
      ensures Value() == Step(old(Value()), DoSettle(id))
    {
      if id !in done || id !in owner { return; }
      var provider := owner[id];
      done, inflight, cached := done - {id}, inflight - {provider}, cached + {provider};
    }

    method Close()
      modifies this`closed
      ensures Value() == Step(old(Value()), DoClose)
    {
      closed := true;
    }
  }
}
