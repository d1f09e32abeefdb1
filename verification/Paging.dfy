/** Snapshot-stable paging of a conversation: the runner serves pages backwards from the
    tail, bounded in number and in size, and the client puts them together again. */
module Paging {
  import opened Options

  // ---------- The server ----------

  /** A turn as it is published; `size` is the length of its encoding. */
  datatype Turn = Turn(id: string, size: nat)

  /** A native thread; `version` is its revision or the hash of its turns. */
  datatype Thread = Thread(id: string, turns: seq<Turn>, version: string)

  datatype Cursor = Cursor(version: string, offset: nat, thread: string)

  datatype Page = Page(version: string, turnCount: nat, ids: seq<string>, next: Option<Cursor>)

  datatype Served = Served(page: Page) | Changed | TooLarge

  const PAGE_BYTES := 192 * 1024

  /** How many turns, going back from the end of the list, fit in what is left of a page. */
  function Fitting(turns: seq<Turn>, size: nat): (k: nat)
    ensures k <= |turns|
    decreases |turns|
  {
    if turns == [] then 0
    else
      var last := |turns| - 1;
      if size + turns[last].size > PAGE_BYTES then 0 else 1 + Fitting(turns[..last], size + turns[last].size)
  }

  /** The turns a page may hold: those before the offset from the tail, at most `limit`. */
  function Window(turns: seq<Turn>, offset: nat, limit: nat): seq<Turn>
    requires offset <= |turns|
  {
    var end := |turns| - offset;
    turns[if end < limit then 0 else end - limit..end]
  }

  function Taken(turns: seq<Turn>, offset: nat, limit: nat): (k: nat)
    requires offset <= |turns|
    ensures offset + k <= |turns|
  {
    Fitting(Window(turns, offset, limit), 0)
  }

  function Ids(turns: seq<Turn>): seq<string> { seq(|turns|, i requires 0 <= i < |turns| => turns[i].id) }

  predicate CursorFits(thread: Thread, cursor: Cursor) {
    cursor.version == thread.version && cursor.thread == thread.id && cursor.offset <= |thread.turns|
  }

  /** The page of these turns, read at the offset. */
  function PageWith(thread: Thread, offset: nat, ids: seq<string>): Served {
    var consumed := offset + |ids|;
    if consumed < |thread.turns| && ids == [] then TooLarge
    else
      Served(Page(thread.version, |thread.turns|, ids,
                  if consumed < |thread.turns| then Some(Cursor(thread.version, consumed, thread.id)) else None))
  }

  function LastIds(window: seq<Turn>, k: nat): seq<string>
    requires k <= |window|
  {
    Ids(window[|window| - k..])
  }

  function PublicHistory(thread: Thread, cursor: Option<Cursor>, limit: nat): Served {
    if cursor.Some? && !CursorFits(thread, cursor.value) then Changed
    else
      var offset := if cursor.Some? then cursor.value.offset else 0;
      var window := Window(thread.turns, offset, limit);
      PageWith(thread, offset, LastIds(window, Fitting(window, 0)))
  }

  /** The loop that fills a page from the back. */
  method FillPage(window: seq<Turn>) returns (turns: seq<string>)
    ensures turns == LastIds(window, Fitting(window, 0))
  {
    var size: nat := 0;
    turns := [];
    assert window[..|window|] == window;
    while |turns| < |window|
      invariant |turns| <= |window| && turns == LastIds(window, |turns|)
      invariant Fitting(window[..|window| - |turns|], size) + |turns| == Fitting(window, 0)
      decreases |window| - |turns|
    {
      var turn := window[|window| - 1 - |turns|];
      ghost var left := window[..|window| - |turns|];
      assert left[..|left| - 1] == window[..|window| - |turns| - 1];
      size := size + turn.size;
      if size > PAGE_BYTES { break; }
      turns := [turn.id] + turns;
    }
  }

  method ServeHistory(thread: Thread, cursor: Option<Cursor>, limit: nat) returns (served: Served)
    ensures served == PublicHistory(thread, cursor, limit)
  {
    hide Fitting, Window, LastIds;
    var offset := 0;
    if cursor.Some? {
      if cursor.value.version != thread.version || cursor.value.thread != thread.id || cursor.value.offset > |thread.turns| {
        return Changed;
      }
      offset := cursor.value.offset;
    }
    var turns := FillPage(Window(thread.turns, offset, limit));
    var consumed := offset + |turns|;
    if consumed < |thread.turns| && turns == [] { return TooLarge; }
    return Served(Page(thread.version, |thread.turns|, turns,
                       if consumed < |thread.turns| then Some(Cursor(thread.version, consumed, thread.id)) else None));
  }

  // ---------- The client ----------

  datatype Reason = LimitExceeded | Incomplete | SnapshotChanged | InvalidTurnId | DuplicateTurn | CursorCycle

  datatype Outcome = Inventory(version: string, turnCount: nat, ids: seq<string>) | Failed(reason: Reason)

  /** What the n-th read returns for a cursor; None when it fails or holds no history. */
  type Source = (nat, Option<Cursor>) -> Option<Page>

  const ID_LENGTH := 512

  predicate ValidId(id: string) { 1 <= |id| <= ID_LENGTH }

  /** The first turn of a page whose id is invalid or was seen before. */
  function IdProblem(ids: seq<string>, seen: set<string>): Option<Reason> {
    if ids == [] then None
    else if !ValidId(ids[0]) then Some(InvalidTurnId)
    else if ids[0] in seen then Some(DuplicateTurn)
    else IdProblem(ids[1..], seen + {ids[0]})
  }

  function Elements(ids: seq<string>): set<string> { set id | id in ids }

  /** Everything checked on a page but its cursor. */
  function Problem(page: Page, version: string, turnCount: nat, got: seq<string>, maxTurns: int): Option<Reason> {
    if page.turnCount > maxTurns then Some(LimitExceeded)
    else if page.version != version || page.turnCount != turnCount then Some(SnapshotChanged)
    else if page.ids == [] && (page.next.Some? || turnCount != 0) then Some(Incomplete)
    else if IdProblem(page.ids, Elements(got)).Some? then IdProblem(page.ids, Elements(got))
    else if |Elements(page.ids + got)| > turnCount then Some(Incomplete)
    else if page.next.None? && |Elements(page.ids + got)| != turnCount then Some(Incomplete)
    else None
  }

  /** The rest of the inventory, from the n-th read on, after the turns in `got`. */
  function Collect(source: Source, maxTurns: int, maxPages: int, n: nat, cursor: Option<Cursor>, snapshot: Option<Page>,
                   got: seq<string>, cursors: set<Cursor>): Outcome
    decreases maxPages - n
  {
    if n >= maxPages then Failed(LimitExceeded)
    else
      match source(n, cursor)
      case None => Failed(Incomplete)
      case Some(page) =>
        var first := if snapshot.Some? then snapshot.value else page;
        var problem := Problem(page, first.version, first.turnCount, got, maxTurns);
        if problem.Some? then Failed(problem.value)
        else if page.next.None? then Inventory(first.version, first.turnCount, page.ids + got)
        else if page.next.value in cursors then Failed(CursorCycle)
        else Collect(source, maxTurns, maxPages, n + 1, page.next, Some(first), page.ids + got, cursors + {page.next.value})
  }

  predicate LimitsOk(maxTurns: int, maxPages: int, pageSize: int) {
    1 <= maxTurns <= 10000 && 1 <= maxPages <= 1024 && 1 <= pageSize <= 100
  }

  function ReadInventory(source: Source, maxTurns: int, maxPages: int, pageSize: int): Outcome {
    if !LimitsOk(maxTurns, maxPages, pageSize) then Failed(LimitExceeded)
    else Collect(source, maxTurns, maxPages, 0, None, None, [], {})
  }

  /** The pages in the order they were read, put in chronological order. */
  function Chronological(pages: seq<seq<string>>): seq<string> {
    if pages == [] then [] else pages[|pages| - 1] + Chronological(pages[..|pages| - 1])
  }

  lemma ElementsOfConcat(a: seq<string>, b: seq<string>)
    ensures Elements(a + b) == Elements(a) + Elements(b)
  {}

  method CheckIds(turns: seq<string>, seen: set<string>) returns (ids: set<string>, problem: Option<Reason>)
    ensures problem == IdProblem(turns, seen)
    ensures problem.None? ==> ids == seen + Elements(turns)
  {
    ids := seen;
    for i := 0 to |turns|
      invariant ids == seen + Elements(turns[..i])
      invariant IdProblem(turns[i..], ids) == IdProblem(turns, seen)
    {
      assert turns[i..][1..] == turns[i + 1..] && turns[..i + 1] == turns[..i] + [turns[i]];
      ElementsOfConcat(turns[..i], [turns[i]]);
      assert Elements([turns[i]]) == {turns[i]};
      if |turns[i]| < 1 || |turns[i]| > ID_LENGTH { return ids, Some(InvalidTurnId); }
      if turns[i] in ids { return ids, Some(DuplicateTurn); }
      ids := ids + {turns[i]};
    }
    assert turns[..|turns|] == turns;
    problem := None;
  }

  method CheckPage(page: Page, first: Page, seen: set<string>, maxTurns: int, ghost got: seq<string>)
    returns (ids: set<string>, problem: Option<Reason>)
    requires seen == Elements(got)
    ensures problem == Problem(page, first.version, first.turnCount, got, maxTurns)
    ensures problem.None? ==> ids == Elements(page.ids + got)
  {
    ids := seen;
    if page.turnCount > maxTurns { return ids, Some(LimitExceeded); }
    if page.version != first.version || page.turnCount != first.turnCount { return ids, Some(SnapshotChanged); }
    if page.ids == [] && (page.next.Some? || first.turnCount != 0) { return ids, Some(Incomplete); }
    ElementsOfConcat(page.ids, got);
    ids, problem := CheckIds(page.ids, ids);
    if problem.Some? { return; }
    assert ids == Elements(page.ids + got);
    if |ids| > first.turnCount { return ids, Some(Incomplete); }
    if page.next.None? && |ids| != first.turnCount { return ids, Some(Incomplete); }
  }

  method ReadConversationInventory(source: Source, maxTurns: int, maxPages: int, pageSize: int) returns (r: Outcome)
    ensures r == ReadInventory(source, maxTurns, maxPages, pageSize)
  {
    hide Problem, Elements;
    if !LimitsOk(maxTurns, maxPages, pageSize) { return Failed(LimitExceeded); }
    var pages: seq<seq<string>>, ids: set<string>, cursors: set<Cursor> := [], {}, {};
    var cursor: Option<Cursor>, snapshot: Option<Page> := None, None;
    var index: nat := 0;
    ghost var goal := Collect(source, maxTurns, maxPages, 0, None, None, [], {});
    NoElements();
    while index < maxPages
      invariant index <= maxPages && ids == Elements(Chronological(pages))
      invariant Collect(source, maxTurns, maxPages, index, cursor, snapshot, Chronological(pages), cursors) == goal
    {
      var answer := source(index, cursor);
      if answer.None? { return Failed(Incomplete); }
      var page := answer.value;
      var first := if snapshot.Some? then snapshot.value else page;
      ghost var got := Chronological(pages);
      var problem: Option<Reason>;
      ids, problem := CheckPage(page, first, ids, maxTurns, got);
      if problem.Some? { return Failed(problem.value); }
      pages := pages + [page.ids];
      if page.next.None? { return Inventory(first.version, first.turnCount, Chronological(pages)); }
      if page.next.value in cursors { return Failed(CursorCycle); }
      cursors, cursor, snapshot, index := cursors + {page.next.value}, page.next, Some(first), index + 1;
    }
    return Failed(LimitExceeded);
  }

  lemma NoElements()
    ensures Elements([]) == {}
  {}

  // ---------- Whatever the source answers ----------

  predicate Distinct(ids: seq<string>) { forall i, j | 0 <= i < j < |ids| :: ids[i] != ids[j] }

  predicate AllValid(ids: seq<string>) { forall i | 0 <= i < |ids| :: ValidId(ids[i]) }

  lemma {:induction false} DistinctCount(ids: seq<string>)
    requires Distinct(ids)
    ensures |Elements(ids)| == |ids|
  {
    if ids != [] {
      DistinctCount(ids[1..]);
      assert ids == [ids[0]] + ids[1..];
      ElementsOfConcat([ids[0]], ids[1..]);
      assert ids[0] !in ids[1..] && Elements([ids[0]]) == {ids[0]};
    }
  }

  lemma {:induction false} CheckedIds(ids: seq<string>, seen: set<string>)
    requires IdProblem(ids, seen).None?
    ensures Distinct(ids) && AllValid(ids) && forall i | 0 <= i < |ids| :: ids[i] !in seen
    decreases |ids|
  {
    if ids != [] { CheckedIds(ids[1..], seen + {ids[0]}); }
  }

  lemma {:induction false} UncheckedIds(ids: seq<string>, seen: set<string>)
    requires Distinct(ids) && AllValid(ids) && forall i | 0 <= i < |ids| :: ids[i] !in seen
    ensures IdProblem(ids, seen).None?
    decreases |ids|
  {
    if ids != [] { UncheckedIds(ids[1..], seen + {ids[0]}); }
  }

  lemma GoodPageExtends(page: Page, version: string, turnCount: nat, got: seq<string>, maxTurns: int)
    requires Problem(page, version, turnCount, got, maxTurns).None? && Distinct(got) && AllValid(got)
    ensures Distinct(page.ids + got) && AllValid(page.ids + got)
    ensures page.next.None? ==> |page.ids + got| == turnCount
  {
    CheckedIds(page.ids, Elements(got));
    assert forall i | 0 <= i < |got| :: got[i] in Elements(got);
    DistinctCount(page.ids + got);
  }

  /** An inventory is never partial and never repeats a turn, whatever the source does. */
  lemma InventoriesAreComplete(source: Source, maxTurns: int, maxPages: int, pageSize: int)
    requires ReadInventory(source, maxTurns, maxPages, pageSize).Inventory?
    ensures var r := ReadInventory(source, maxTurns, maxPages, pageSize);
            |r.ids| == r.turnCount <= maxTurns && Distinct(r.ids) && AllValid(r.ids)
  {
    CollectedAreComplete(source, maxTurns, maxPages, 0, None, None, [], {});
  }

  lemma {:induction false} CollectedAreComplete(source: Source, maxTurns: int, maxPages: int, n: nat, cursor: Option<Cursor>,
                                                snapshot: Option<Page>, got: seq<string>, cursors: set<Cursor>)
    requires Distinct(got) && AllValid(got)
    ensures var r := Collect(source, maxTurns, maxPages, n, cursor, snapshot, got, cursors);
            r.Inventory? ==> |r.ids| == r.turnCount <= maxTurns && Distinct(r.ids) && AllValid(r.ids)
    decreases maxPages - n
  {
    if n < maxPages && source(n, cursor).Some? {
      var page := source(n, cursor).value;
      var first := if snapshot.Some? then snapshot.value else page;
      if Problem(page, first.version, first.turnCount, got, maxTurns).None? {
        GoodPageExtends(page, first.version, first.turnCount, got, maxTurns);
        if page.next.Some? && page.next.value !in cursors {
          hide Problem, Distinct, AllValid;
          CollectedAreComplete(source, maxTurns, maxPages, n + 1, page.next, Some(first), page.ids + got, cursors + {page.next.value});
        }
      }
    }
  }

  // ---------- Against the server ----------

  /** A source that serves, at the n-th read, the thread as it then is. */
  ghost predicate ServesFrom(source: Source, threads: nat -> Thread, pageSize: nat) {
    forall n, cursor :: source(n, cursor) == PageOf(PublicHistory(threads(n), cursor, pageSize))
  }

  function PageOf(served: Served): Option<Page> { if served.Served? then Some(served.page) else None }

  /** Versions tell threads apart. */
  ghost predicate VersionsIdentify(threads: nat -> Thread) {
    forall m, n :: threads(m).version == threads(n).version ==> threads(m).turns == threads(n).turns
  }

  /** The turns from the tail that earlier pages have covered. */
  function Covered(turns: seq<Turn>, offset: nat): seq<string>
    requires offset <= |turns|
  {
    Ids(turns[|turns| - offset..])
  }

  /** A page that is served covers the turns just before those covered, and its cursor names
      a strictly later offset. */
  lemma PageCovers(thread: Thread, cursor: Option<Cursor>, limit: nat)
    requires PublicHistory(thread, cursor, limit).Served?
    ensures var page := PublicHistory(thread, cursor, limit).page;
            var offset := if cursor.Some? then cursor.value.offset else 0;
            && page.version == thread.version && page.turnCount == |thread.turns|
            && offset + |page.ids| <= |thread.turns|
            && page.ids + Covered(thread.turns, offset) == Covered(thread.turns, offset + |page.ids|)
            && (page.next.Some? ==> |page.ids| > 0 && page.next.value == Cursor(thread.version, offset + |page.ids|, thread.id))
            && (page.next.None? ==> offset + |page.ids| == |thread.turns|)
  {
    hide LastIds, Covered, Window, Fitting;
    var offset := if cursor.Some? then cursor.value.offset else 0;
    LastIdsCover(thread.turns, offset, limit, Taken(thread.turns, offset, limit));
  }

  lemma LastIdsCover(turns: seq<Turn>, offset: nat, limit: nat, k: nat)
    requires offset <= |turns| && k <= |Window(turns, offset, limit)|
    ensures var ids := LastIds(Window(turns, offset, limit), k);
            |ids| == k && offset + k <= |turns| && ids + Covered(turns, offset) == Covered(turns, offset + k)
  {
    var end, window := |turns| - offset, Window(turns, offset, limit);
    var first, second := turns[end - k..end], turns[end..];
    assert window[|window| - k..] == first;
    assert first + second == turns[end - k..];
  }

  /** However the thread changes between reads, an inventory is exactly the turns, in order,
      of the thread that carries its version: pages of different versions never mix. */
  lemma InventoriesAreOneVersion(source: Source, threads: nat -> Thread, maxTurns: int, maxPages: int, pageSize: nat)
    requires ServesFrom(source, threads, pageSize) && VersionsIdentify(threads)
    requires ReadInventory(source, maxTurns, maxPages, pageSize).Inventory?
    ensures var r := ReadInventory(source, maxTurns, maxPages, pageSize);
            r == Inventory(threads(0).version, |threads(0).turns|, Ids(threads(0).turns))
  {
    assert threads(0).turns[|threads(0).turns|..] == [];
    CollectsOneVersion(source, threads, maxTurns, maxPages, pageSize, 0, None, None, [], {});
  }

  lemma SourceServes(source: Source, threads: nat -> Thread, pageSize: nat, n: nat, cursor: Option<Cursor>)
    requires ServesFrom(source, threads, pageSize)
    ensures source(n, cursor).Some? <==> PublicHistory(threads(n), cursor, pageSize).Served?
    ensures source(n, cursor).Some? ==> source(n, cursor).value == PublicHistory(threads(n), cursor, pageSize).page
  {
    assert source(n, cursor) == PageOf(PublicHistory(threads(n), cursor, pageSize));
  }

  lemma VersionsAgree(threads: nat -> Thread, n: nat)
    requires VersionsIdentify(threads) && threads(n).version == threads(0).version
    ensures threads(n).turns == threads(0).turns
  {}

  /** How one good page continues a collection. */
  lemma CollectNext(source: Source, maxTurns: int, maxPages: int, n: nat, cursor: Option<Cursor>, snapshot: Option<Page>,
                    got: seq<string>, cursors: set<Cursor>, page: Page, first: Page)
    requires n < maxPages && source(n, cursor) == Some(page) && first == if snapshot.Some? then snapshot.value else page
    requires Problem(page, first.version, first.turnCount, got, maxTurns).None?
    ensures Collect(source, maxTurns, maxPages, n, cursor, snapshot, got, cursors)
         == if page.next.None? then Inventory(first.version, first.turnCount, page.ids + got)
            else if page.next.value in cursors then Failed(CursorCycle)
            else Collect(source, maxTurns, maxPages, n + 1, page.next, Some(first), page.ids + got, cursors + {page.next.value})
  {
    hide Problem;
  }

  lemma CollectEnds(source: Source, maxTurns: int, maxPages: int, n: nat, cursor: Option<Cursor>, snapshot: Option<Page>,
                    got: seq<string>, cursors: set<Cursor>)
    requires n >= maxPages || source(n, cursor).None?
    ensures Collect(source, maxTurns, maxPages, n, cursor, snapshot, got, cursors).Failed?
  {
    hide Problem;
  }

  lemma CollectStops(source: Source, maxTurns: int, maxPages: int, n: nat, cursor: Option<Cursor>, snapshot: Option<Page>,
                     got: seq<string>, cursors: set<Cursor>, page: Page, first: Page)
    requires source(n, cursor) == Some(page) && first == if snapshot.Some? then snapshot.value else page
    requires Problem(page, first.version, first.turnCount, got, maxTurns).Some?
    ensures !Collect(source, maxTurns, maxPages, n, cursor, snapshot, got, cursors).Inventory?
  {
    hide Problem;
  }

  lemma SameSnapshot(page: Page, first: Page, got: seq<string>, maxTurns: int)
    requires Problem(page, first.version, first.turnCount, got, maxTurns).None?
    ensures page.version == first.version && page.turnCount == first.turnCount
  {}

  lemma {:induction false} CollectsOneVersion(source: Source, threads: nat -> Thread, maxTurns: int, maxPages: int, pageSize: nat,
                                              n: nat, cursor: Option<Cursor>, snapshot: Option<Page>, got: seq<string>, cursors: set<Cursor>)
    requires ServesFrom(source, threads, pageSize) && VersionsIdentify(threads)
    requires snapshot.Some? ==> snapshot.value.version == threads(0).version && snapshot.value.turnCount == |threads(0).turns|
    requires snapshot.None? ==> n == 0
    requires cursor.Some? <==> snapshot.Some?
    requires var offset := if cursor.Some? then cursor.value.offset else 0;
             offset <= |threads(0).turns| && got == Covered(threads(0).turns, offset)
    ensures var r := Collect(source, maxTurns, maxPages, n, cursor, snapshot, got, cursors);
            r.Inventory? ==> r == Inventory(threads(0).version, |threads(0).turns|, Ids(threads(0).turns))
    decreases maxPages - n
  {
    hide *;
    if n >= maxPages || source(n, cursor).None? {
      CollectEnds(source, maxTurns, maxPages, n, cursor, snapshot, got, cursors);
    } else {
      SourceServes(source, threads, pageSize, n, cursor);
      var page := source(n, cursor).value;
      var first := if snapshot.Some? then snapshot.value else page;
      PageCovers(threads(n), cursor, pageSize);
      if Problem(page, first.version, first.turnCount, got, maxTurns).Some? {
        CollectStops(source, maxTurns, maxPages, n, cursor, snapshot, got, cursors, page, first);
      } else {
        SameSnapshot(page, first, got, maxTurns);
        VersionsAgree(threads, n);
        CollectNext(source, maxTurns, maxPages, n, cursor, snapshot, got, cursors, page, first);
        AllCovered(threads(0).turns);
        if page.next.Some? && page.next.value !in cursors {
          CollectsOneVersion(source, threads, maxTurns, maxPages, pageSize, n + 1, page.next, Some(first), page.ids + got, cursors + {page.next.value});
        }
      }
    }
  }

  lemma AllCovered(turns: seq<Turn>)
    ensures Covered(turns, |turns|) == Ids(turns)
  {
    assert turns[0..] == turns;
  }

  /** The reads the client needs: as many as the server makes pages. */
  function PageCount(turns: seq<Turn>, offset: nat, limit: nat): (pages: nat)
    requires offset <= |turns|
    decreases |turns| - offset
  {
    var k := Taken(turns, offset, limit);
    if k == 0 || offset + k >= |turns| then 1 else 1 + PageCount(turns, offset + k, limit)
  }

  predicate TurnsFit(turns: seq<Turn>) { forall i | 0 <= i < |turns| :: turns[i].size <= PAGE_BYTES }

  /** A stable thread is read completely, for every page size and wherever the byte bound
      cuts pages short, provided each turn fits a page and the client's limits allow it. */
  lemma StableThreadsAreReadCompletely(source: Source, thread: Thread, maxTurns: int, maxPages: int, pageSize: int)
    requires LimitsOk(maxTurns, maxPages, pageSize) && ServesFrom(source, _ => thread, pageSize)
    requires TurnsFit(thread.turns) && Distinct(Ids(thread.turns)) && AllValid(Ids(thread.turns))
    requires |thread.turns| <= maxTurns && PageCount(thread.turns, 0, pageSize) <= maxPages
    ensures ReadInventory(source, maxTurns, maxPages, pageSize) == Inventory(thread.version, |thread.turns|, Ids(thread.turns))
  {
    assert Covered(thread.turns, 0) == [];
    hide ServesFrom, PublicHistory, Collect, TurnsFit, Distinct, AllValid, Ids, PageCount;
    CollectsStableThread(source, thread, maxTurns, maxPages, pageSize, 0, None, None, {});
  }

  lemma TakesSomething(turns: seq<Turn>, offset: nat, limit: nat)
    requires TurnsFit(turns) && offset < |turns| && limit >= 1
    ensures Taken(turns, offset, limit) >= 1
  {
    var window := Window(turns, offset, limit);
    assert window[|window| - 1] == turns[|turns| - offset - 1];
  }

  /** One page per turn always suffices. */
  lemma {:induction false} PagesAreBounded(turns: seq<Turn>, offset: nat, limit: nat)
    requires offset <= |turns|
    ensures PageCount(turns, offset, limit) <= if offset < |turns| then |turns| - offset else 1
    decreases |turns| - offset
  {
    var k := Taken(turns, offset, limit);
    if k > 0 && offset + k < |turns| { PagesAreBounded(turns, offset + k, limit); }
  }

  ghost predicate CursorsBelow(cursors: set<Cursor>, offset: nat) { forall c | c in cursors :: c.offset <= offset }

  lemma {:induction false} CollectsStableThread(source: Source, thread: Thread, maxTurns: int, maxPages: int, pageSize: nat,
                                                n: nat, cursor: Option<Cursor>, snapshot: Option<Page>, cursors: set<Cursor>)
    requires ServesFrom(source, _ => thread, pageSize) && pageSize >= 1
    requires TurnsFit(thread.turns) && Distinct(Ids(thread.turns)) && AllValid(Ids(thread.turns)) && |thread.turns| <= maxTurns
    requires cursor.Some? ==> CursorFits(thread, cursor.value)
    requires snapshot.Some? ==> snapshot.value.version == thread.version && snapshot.value.turnCount == |thread.turns|
    requires var offset := if cursor.Some? then cursor.value.offset else 0;
             && (offset < |thread.turns| || cursor.None?) && CursorsBelow(cursors, offset)
             && n + PageCount(thread.turns, offset, pageSize) <= maxPages
    ensures var offset := if cursor.Some? then cursor.value.offset else 0;
            Collect(source, maxTurns, maxPages, n, cursor, snapshot, Covered(thread.turns, offset), cursors)
            == Inventory(thread.version, |thread.turns|, Ids(thread.turns))
    decreases maxPages - n
  {
    hide Problem, Covered, ServesFrom, Collect, Distinct, AllValid, TurnsFit, Window, Fitting, LastIds, Ids;
    var offset := if cursor.Some? then cursor.value.offset else 0;
    SourceServes(source, _ => thread, pageSize, n, cursor);
    if offset < |thread.turns| { TakesSomething(thread.turns, offset, pageSize); }
    LastIdsCover(thread.turns, offset, pageSize, Taken(thread.turns, offset, pageSize));
    var page := PublicHistory(thread, cursor, pageSize).page;
    var first := if snapshot.Some? then snapshot.value else page;
    PageCovers(thread, cursor, pageSize);
    StablePageIsGood(thread, page, offset, maxTurns);
    CollectNext(source, maxTurns, maxPages, n, cursor, snapshot, Covered(thread.turns, offset), cursors, page, first);
    AllCovered(thread.turns);
    if page.next.Some? {
      CollectsStableThread(source, thread, maxTurns, maxPages, pageSize, n + 1, page.next, Some(first), cursors + {page.next.value});
    }
  }

  lemma StablePageIsGood(thread: Thread, page: Page, offset: nat, maxTurns: int)
    requires Distinct(Ids(thread.turns)) && AllValid(Ids(thread.turns)) && |thread.turns| <= maxTurns
    requires page.version == thread.version && page.turnCount == |thread.turns|
    requires offset + |page.ids| <= |thread.turns|
    requires page.ids + Covered(thread.turns, offset) == Covered(thread.turns, offset + |page.ids|)
    requires page.next.Some? ==> |page.ids| > 0
    requires page.next.None? ==> offset + |page.ids| == |thread.turns|
    requires page.ids == [] ==> |thread.turns| == 0
    ensures Problem(page, thread.version, |thread.turns|, Covered(thread.turns, offset), maxTurns).None?
  {
    hide IdProblem, ValidId;
    var all, got := Covered(thread.turns, offset + |page.ids|), Covered(thread.turns, offset);
    var skipped := |thread.turns| - offset - |page.ids|;
    assert forall i | 0 <= i < |all| :: all[i] == Ids(thread.turns)[skipped + i];
    assert Distinct(all) && AllValid(all);
    assert forall i | 0 <= i < |page.ids| :: page.ids[i] == all[i];
    assert forall i | 0 <= i < |got| :: got[i] == all[|page.ids| + i];
    forall i | 0 <= i < |page.ids| ensures page.ids[i] !in Elements(got) {
      assert page.ids[i] == all[i];
    }
    UncheckedIds(page.ids, Elements(got));
    DistinctCount(all);
  }

  // ---------- How much a page holds ----------

  function Bytes(turns: seq<Turn>): nat {
    if turns == [] then 0 else Bytes(turns[..|turns| - 1]) + turns[|turns| - 1].size
  }

  lemma {:induction false} FittingIsMost(turns: seq<Turn>, size: nat)
    requires size <= PAGE_BYTES
    ensures var k := Fitting(turns, size);
            && size + Bytes(turns[|turns| - k..]) <= PAGE_BYTES
            && (k < |turns| ==> size + Bytes(turns[|turns| - k - 1..]) > PAGE_BYTES)
    decreases |turns|
  {
    hide Bytes;
    NoBytes();
    if turns != [] {
      var n := |turns| - 1;
      BytesOfTail(turns, n);
      assert turns[..n][n..] == [] && turns[n + 1..] == [];
      if size + turns[n].size <= PAGE_BYTES {
        FittingIsMost(turns[..n], size + turns[n].size);
        var k := Fitting(turns[..n], size + turns[n].size);
        BytesOfTail(turns, n - k);
        if k < n { BytesOfTail(turns, n - k - 1); }
      }
    }
  }

  lemma NoBytes()
    ensures Bytes([]) == 0
  {}

  lemma BytesOfTail(turns: seq<Turn>, from: nat)
    requires from < |turns|
    ensures Bytes(turns[from..]) == Bytes(turns[..|turns| - 1][from..]) + turns[|turns| - 1].size
  {
    assert turns[from..][..|turns[from..]| - 1] == turns[..|turns| - 1][from..];
  }

  /** A cursor is served exactly while the thread is the one it was made for; the page then holds
      the most turns before its offset that are not too many and not too big, and it is refused
      only when there are turns left and not even one fits. */
  lemma PagesHoldTheMost(thread: Thread, cursor: Option<Cursor>, limit: nat) returns (k: nat)
    ensures var served, offset := PublicHistory(thread, cursor, limit), if cursor.Some? then cursor.value.offset else 0;
            var end := |thread.turns| - offset;
            && (served.Changed? <==>
                  cursor.Some? && (cursor.value.version != thread.version || cursor.value.thread != thread.id || offset > |thread.turns|))
            && (!served.Changed? ==>
                  && k <= limit && k <= end && Bytes(thread.turns[end - k..end]) <= 196608
                  && (k < limit && k < end ==> Bytes(thread.turns[end - k - 1..end]) > 196608)
                  && served == if k == 0 && end > 0 then TooLarge
                               else Served(Page(thread.version, |thread.turns|, Ids(thread.turns[end - k..end]),
                                                if k < end then Some(Cursor(thread.version, offset + k, thread.id)) else None)))
  {
    hide PublicHistory, Fitting, Bytes, Ids, LastIds, Window, Taken;
    k := 0;
    HowServed(thread, cursor, limit);
    if !PublicHistory(thread, cursor, limit).Changed? {
      var offset := if cursor.Some? then cursor.value.offset else 0;
      k := Taken(thread.turns, offset, limit);
      WindowHoldsTheMost(thread.turns, offset, limit);
      IdsAre(thread.turns[|thread.turns| - offset - k..|thread.turns| - offset]);
    }
  }

  lemma HowServed(thread: Thread, cursor: Option<Cursor>, limit: nat)
    ensures var served, offset := PublicHistory(thread, cursor, limit), if cursor.Some? then cursor.value.offset else 0;
            && (served.Changed? <==>
                  cursor.Some? && (cursor.value.version != thread.version || cursor.value.thread != thread.id || offset > |thread.turns|))
            && (!served.Changed? ==>
                  var window := Window(thread.turns, offset, limit);
                  served == PageWith(thread, offset, LastIds(window, Fitting(window, 0))))
  {
    hide Fitting, Window, LastIds;
  }

  lemma IdsAre(turns: seq<Turn>)
    ensures |Ids(turns)| == |turns| && forall i | 0 <= i < |turns| :: Ids(turns)[i] == turns[i].id
  {}

  lemma WindowHoldsTheMost(turns: seq<Turn>, offset: nat, limit: nat)
    requires offset <= |turns|
    ensures var k, end := Taken(turns, offset, limit), |turns| - offset;
            && k <= limit && Bytes(turns[end - k..end]) <= PAGE_BYTES
            && (k < limit && k < end ==> Bytes(turns[end - k - 1..end]) > PAGE_BYTES)
            && LastIds(Window(turns, offset, limit), Fitting(Window(turns, offset, limit), 0)) == Ids(turns[end - k..end])
  {
    hide Fitting, Bytes, Ids;
    var window, k, end := Window(turns, offset, limit), Taken(turns, offset, limit), |turns| - offset;
    FittingIsMost(window, 0);
    assert window[|window| - k..] == turns[end - k..end];
    if k < |window| { assert window[|window| - k - 1..] == turns[end - k - 1..end]; }
  }

  // ---------- Exactly which inventories are read ----------

  /** From the n-th read on the source answers these pages: each is asked for by the cursor of
      the one before, which is no earlier one, all are of one version and count, only the last
      has no cursor, and none is empty but the only page of an empty history. */
  ghost predicate Answers(source: Source, version: string, turnCount: nat, n: nat, cursor: Option<Cursor>, cursors: set<Cursor>, pages: seq<Page>)
    decreases |pages|
  {
    && pages != [] && source(n, cursor) == Some(pages[0])
    && pages[0].version == version && pages[0].turnCount == turnCount
    && (pages[0].ids != [] || (turnCount == 0 && pages[0].next.None?))
    && if |pages| == 1 then pages[0].next.None?
       else
         && pages[0].next.Some? && pages[0].next.value !in cursors
         && Answers(source, version, turnCount, n + 1, pages[0].next, cursors + {pages[0].next.value}, pages[1..])
  }

  function Joined(pages: seq<Page>): seq<string> { if pages == [] then [] else Joined(pages[1..]) + pages[0].ids }

  lemma TailIsGood(more: seq<string>, tail: seq<string>)
    requires Distinct(more + tail) && AllValid(more + tail)
    ensures Distinct(tail) && AllValid(tail)
  {
    assert forall i | 0 <= i < |tail| :: tail[i] == (more + tail)[|more| + i];
  }

  lemma HeadIsGood(ids: seq<string>, got: seq<string>)
    requires Distinct(ids + got) && AllValid(ids + got)
    ensures IdProblem(ids, Elements(got)).None?
  {
    var all := ids + got;
    assert forall i | 0 <= i < |ids| :: ids[i] == all[i];
    forall i | 0 <= i < |ids| ensures ids[i] !in Elements(got) {
      assert forall j | 0 <= j < |got| :: got[j] == all[|ids| + j];
    }
    UncheckedIds(ids, Elements(got));
  }

  lemma GoodPagePasses(page: Page, turnCount: nat, got: seq<string>, more: seq<string>, maxTurns: int)
    requires page.turnCount == turnCount <= maxTurns && (page.ids != [] || (turnCount == 0 && page.next.None?))
    requires Distinct(more + (page.ids + got)) && AllValid(more + (page.ids + got)) && |more + (page.ids + got)| == turnCount
    requires page.next.None? ==> more == []
    ensures Problem(page, page.version, turnCount, got, maxTurns).None?
  {
    hide Distinct, AllValid, IdProblem, Elements;
    TailIsGood(more, page.ids + got);
    HeadIsGood(page.ids, got);
    DistinctCount(page.ids + got);
  }

  lemma {:induction false} AnsweredIsCollected(
    source: Source, maxTurns: int, maxPages: int, version: string, turnCount: nat, n: nat, cursor: Option<Cursor>, snapshot: Option<Page>,
    got: seq<string>, cursors: set<Cursor>, pages: seq<Page>)
    requires Answers(source, version, turnCount, n, cursor, cursors, pages) && n + |pages| <= maxPages && turnCount <= maxTurns
    requires snapshot.Some? ==> snapshot.value.version == version && snapshot.value.turnCount == turnCount
    requires Distinct(Joined(pages) + got) && AllValid(Joined(pages) + got) && |Joined(pages) + got| == turnCount
    ensures Collect(source, maxTurns, maxPages, n, cursor, snapshot, got, cursors) == Inventory(version, turnCount, Joined(pages) + got)
    decreases |pages|
  {
    hide Problem, Distinct, AllValid;
    var page, rest := pages[0], pages[1..];
    assert Joined(pages) + got == Joined(rest) + (page.ids + got);
    if |pages| == 1 { assert rest == [] && Joined(rest) == [] && Joined(pages) + got == page.ids + got; }
    GoodPagePasses(page, turnCount, got, Joined(rest), maxTurns);
    if |pages| > 1 {
      var first := if snapshot.Some? then snapshot.value else page;
      AnsweredIsCollected(source, maxTurns, maxPages, version, turnCount, n + 1, page.next, Some(first), page.ids + got, cursors + {page.next.value}, rest);
    }
  }

  lemma ProblemFreePage(page: Page, version: string, turnCount: nat, got: seq<string>, maxTurns: int)
    requires Problem(page, version, turnCount, got, maxTurns).None?
    ensures page.version == version && page.turnCount == turnCount && (page.ids != [] || (turnCount == 0 && page.next.None?))
  {}

  lemma {:induction false} CollectedWasAnswered(
    source: Source, maxTurns: int, maxPages: int, n: nat, cursor: Option<Cursor>, snapshot: Option<Page>, got: seq<string>, cursors: set<Cursor>)
    returns (pages: seq<Page>)
    requires Collect(source, maxTurns, maxPages, n, cursor, snapshot, got, cursors).Inventory?
    ensures var r := Collect(source, maxTurns, maxPages, n, cursor, snapshot, got, cursors);
            && Answers(source, r.version, r.turnCount, n, cursor, cursors, pages) && n + |pages| <= maxPages && r.ids == Joined(pages) + got
            && (snapshot.Some? ==> snapshot.value.version == r.version && snapshot.value.turnCount == r.turnCount)
    decreases maxPages - n
  {
    hide Problem;
    var page := source(n, cursor).value;
    var first := if snapshot.Some? then snapshot.value else page;
    ProblemFreePage(page, first.version, first.turnCount, got, maxTurns);
    if page.next.None? {
      pages := [page];
      assert pages[1..] == [] && Joined(pages) == page.ids;
    } else {
      var rest := CollectedWasAnswered(source, maxTurns, maxPages, n + 1, page.next, Some(first), page.ids + got, cursors + {page.next.value});
      pages := [page] + rest;
      assert pages[1..] == rest && Joined(pages) + got == Joined(rest) + (page.ids + got);
    }
  }

  /** An inventory is read exactly when the limits are in order and the source answers with a chain
      of pages that joins, last page first, to as many distinct valid ids as each page announces. */
  lemma InventoriesAreExact(source: Source, maxTurns: int, maxPages: int, pageSize: int, version: string, turnCount: nat, ids: seq<string>)
    ensures ReadInventory(source, maxTurns, maxPages, pageSize) == Inventory(version, turnCount, ids)
       <==> && 1 <= maxTurns <= 10000 && 1 <= maxPages <= 1024 && 1 <= pageSize <= 100
            && |ids| == turnCount <= maxTurns && Distinct(ids) && AllValid(ids)
            && exists pages :: |pages| <= maxPages && Joined(pages) == ids && Answers(source, version, turnCount, 0, None, {}, pages)
    ensures !(1 <= maxTurns <= 10000 && 1 <= maxPages <= 1024 && 1 <= pageSize <= 100) ==>
              ReadInventory(source, maxTurns, maxPages, pageSize) == Failed(LimitExceeded)
  {
    hide Collect, Answers, Distinct, AllValid;
    if !LimitsOk(maxTurns, maxPages, pageSize) { return; }
    var r := Collect(source, maxTurns, maxPages, 0, None, None, [], {});
    if r == Inventory(version, turnCount, ids) {
      InventoriesAreComplete(source, maxTurns, maxPages, pageSize);
      var pages := CollectedWasAnswered(source, maxTurns, maxPages, 0, None, None, [], {});
      assert Joined(pages) + [] == Joined(pages);
    }
    forall pages | |pages| <= maxPages && Joined(pages) == ids && Answers(source, version, turnCount, 0, None, {}, pages)
                   && |ids| == turnCount <= maxTurns && Distinct(ids) && AllValid(ids)
      ensures r == Inventory(version, turnCount, ids) {
      assert Joined(pages) + [] == Joined(pages);
      AnsweredIsCollected(source, maxTurns, maxPages, version, turnCount, 0, None, None, [], {}, pages);
    }
  }
}
