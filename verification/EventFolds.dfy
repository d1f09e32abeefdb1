/** Folding a slice of events that may come in any order and with repetitions: sort by
    sequence, take each sequence once, refuse two events of one sequence. */
module EventFolds {
  import opened Options

  function InsertBySequence<E>(key: E -> int, e: E, sorted: seq<E>): seq<E> {
    if sorted == [] || key(e) <= key(sorted[0]) then [e] + sorted
    else [sorted[0]] + InsertBySequence(key, e, sorted[1..])
  }

  /** Stable: events of one sequence keep the order they came in. */
  function BySequence<E>(key: E -> int, events: seq<E>): seq<E> {
    if events == [] then [] else InsertBySequence(key, events[0], BySequence(key, events[1..]))
  }

  ghost predicate IsSorted<E>(key: E -> int, events: seq<E>) {
    forall i, j | 0 <= i < j < |events| :: key(events[i]) <= key(events[j])
  }

  ghost predicate IsStrict<E>(key: E -> int, events: seq<E>) {
    forall i, j | 0 <= i < j < |events| :: key(events[i]) < key(events[j])
  }

  ghost predicate SameElements<E(!new)>(a: seq<E>, b: seq<E>) { forall e :: e in a <==> e in b }

  lemma {:induction false} InsertSorts<E(!new)>(key: E -> int, e: E, sorted: seq<E>)
    requires IsSorted(key, sorted)
    ensures IsSorted(key, InsertBySequence(key, e, sorted)) && SameElements(InsertBySequence(key, e, sorted), [e] + sorted)
  {
    if sorted != [] && key(e) > key(sorted[0]) {
      InsertSorts(key, e, sorted[1..]);
      var rest := InsertBySequence(key, e, sorted[1..]);
      assert sorted == [sorted[0]] + sorted[1..];
      forall j | 0 <= j < |rest| ensures key(sorted[0]) <= key(rest[j]) {
        assert rest[j] in [e] + sorted[1..];
      }
    }
  }

  lemma {:induction false} SortSorts<E(!new)>(key: E -> int, events: seq<E>)
    ensures IsSorted(key, BySequence(key, events)) && SameElements(BySequence(key, events), events)
  {
    if events != [] {
      SortSorts(key, events[1..]);
      InsertSorts(key, events[0], BySequence(key, events[1..]));
      assert events == [events[0]] + events[1..];
    }
  }

  /** The first item with a key, or the length when there is none. */
  function IndexBy<T, K(==)>(key: T -> K, items: seq<T>, k: K): (i: nat)
    ensures i <= |items|
    ensures i < |items| ==> key(items[i]) == k
    ensures forall j | 0 <= j < i :: key(items[j]) != k
  {
    if items == [] || key(items[0]) == k then 0 else 1 + IndexBy(key, items[1..], k)
  }

  // ---------- The fold ----------

  function Fold<S, E>(step: (S, E) -> Option<S>, s: S, events: seq<E>): Option<S>
    decreases |events|
  {
    if events == [] then Some(s)
    else
      match step(s, events[0])
      case None => None
      case Some(next) => Fold(step, next, events[1..])
  }

  /** The fold that remembers the sequences it has taken. */
  function FoldOnce<S, E(==)>(step: (S, E) -> Option<S>, key: E -> int, s: S, seen: map<int, E>, events: seq<E>): Option<S>
    decreases |events|
  {
    if events == [] then Some(s)
    else if key(events[0]) in seen then
      if seen[key(events[0])] != events[0] then None else FoldOnce(step, key, s, seen, events[1..])
    else
      match step(s, events[0])
      case None => None
      case Some(next) => FoldOnce(step, key, next, seen[key(events[0]) := events[0]], events[1..])
  }

  function Projected<S, E(==)>(step: (S, E) -> Option<S>, key: E -> int, s: S, events: seq<E>): Option<S> {
    FoldOnce(step, key, s, map[], BySequence(key, events))
  }

  /** No two events of one sequence. */
  ghost predicate Consistent<E(!new)>(key: E -> int, events: seq<E>) {
    forall e, f :: e in events && f in events && key(e) == key(f) ==> e == f
  }

  ghost predicate Agree<E(!new)>(key: E -> int, seen: map<int, E>, events: seq<E>) {
    forall e :: e in events && key(e) in seen ==> seen[key(e)] == e
  }

  /** The events whose sequence is met for the first time. */
  ghost function Fresh<E>(key: E -> int, seen: map<int, E>, events: seq<E>): seq<E>
    decreases |events|
  {
    if events == [] then []
    else if key(events[0]) in seen then Fresh(key, seen, events[1..])
    else [events[0]] + Fresh(key, seen[key(events[0]) := events[0]], events[1..])
  }

  lemma InTail<E(!new)>(events: seq<E>)
    requires events != []
    ensures forall e :: e in events <==> e == events[0] || e in events[1..]
  {
    assert events == [events[0]] + events[1..];
  }

  lemma {:induction false} SuccessIsConsistent<S(!new), E(!new)>(step: (S, E) -> Option<S>, key: E -> int, s: S, seen: map<int, E>, events: seq<E>)
    ensures FoldOnce(step, key, s, seen, events).Some? ==> Consistent(key, events) && Agree(key, seen, events)
    decreases |events|
  {
    if events != [] {
      InTail(events);
      var e := events[0];
      if key(e) in seen {
        SuccessIsConsistent(step, key, s, seen, events[1..]);
      } else if step(s, e).Some? {
        SuccessIsConsistent(step, key, step(s, e).value, seen[key(e) := e], events[1..]);
      }
    }
  }

  lemma {:induction false} FoldsTheFresh<S(!new), E(!new)>(step: (S, E) -> Option<S>, key: E -> int, s: S, seen: map<int, E>, events: seq<E>)
    requires Consistent(key, events) && Agree(key, seen, events)
    ensures FoldOnce(step, key, s, seen, events) == Fold(step, s, Fresh(key, seen, events))
    decreases |events|
  {
    if events != [] {
      InTail(events);
      var e := events[0];
      if key(e) in seen {
        FoldsTheFresh(step, key, s, seen, events[1..]);
      } else {
        var rest := Fresh(key, seen[key(e) := e], events[1..]);
        assert ([e] + rest)[1..] == rest;
        if step(s, e).Some? { FoldsTheFresh(step, key, step(s, e).value, seen[key(e) := e], events[1..]); }
      }
    }
  }

  lemma {:induction false} FreshElements<E(!new)>(key: E -> int, seen: map<int, E>, events: seq<E>)
    requires Consistent(key, events) && IsSorted(key, events)
    ensures forall e :: e in Fresh(key, seen, events) <==> e in events && key(e) !in seen
    ensures IsStrict(key, Fresh(key, seen, events))
    decreases |events|
  {
    if events != [] {
      InTail(events);
      var e := events[0];
      if key(e) in seen {
        FreshElements(key, seen, events[1..]);
      } else {
        var rest := Fresh(key, seen[key(e) := e], events[1..]);
        FreshElements(key, seen[key(e) := e], events[1..]);
        InTail([e] + rest);
        assert ([e] + rest)[1..] == rest;
        FirstIsLeast(key, events);
        StrictCons(key, e, rest);
      }
    }
  }

  lemma FirstIsLeast<E(!new)>(key: E -> int, events: seq<E>)
    requires IsSorted(key, events) && events != []
    ensures IsSorted(key, events[1..]) && forall f | f in events[1..] :: key(events[0]) <= key(f)
  {
    forall f | f in events[1..] ensures key(events[0]) <= key(f) {
      var i :| 0 <= i < |events[1..]| && events[1..][i] == f;
      assert key(events[0]) <= key(events[i + 1]);
    }
  }

  lemma StrictCons<E(!new)>(key: E -> int, e: E, rest: seq<E>)
    requires IsStrict(key, rest) && forall f | f in rest :: key(e) < key(f)
    ensures IsStrict(key, [e] + rest)
  {
    assert forall i | 0 <= i < |rest| :: rest[i] in rest;
  }

  /** A strictly ascending list is determined by its elements. */
  lemma {:induction false} StrictIsUnique<E(!new)>(key: E -> int, a: seq<E>, b: seq<E>)
    requires IsStrict(key, a) && IsStrict(key, b) && SameElements(a, b)
    ensures a == b
    decreases |a|
  {
    assert b == [] || b[0] in a;
    if a != [] {
      assert a[0] in b;
      if b != [] {
        TailsAgree(key, a, b);
        StrictIsUnique(key, a[1..], b[1..]);
        assert a == [a[0]] + a[1..] && b == [b[0]] + b[1..];
      }
    }
  }

  lemma TailsAgree<E(!new)>(key: E -> int, a: seq<E>, b: seq<E>)
    requires IsStrict(key, a) && IsStrict(key, b) && SameElements(a, b) && a != [] && b != [] && a[0] == b[0]
    ensures IsStrict(key, a[1..]) && IsStrict(key, b[1..]) && SameElements(a[1..], b[1..])
  {
    InTail(a);
    InTail(b);
    assert a[0] !in a[1..] && b[0] !in b[1..];
  }

  /** The projection is a function of the set of events: neither their order nor repetition
      changes the result, and a conflict is refused in every order. */
  lemma OrderAndRepetitionDoNotMatter<S(!new), E(!new)>(step: (S, E) -> Option<S>, key: E -> int, s: S, a: seq<E>, b: seq<E>)
    requires SameElements(a, b)
    ensures Projected(step, key, s, a) == Projected(step, key, s, b)
    ensures !Consistent(key, a) ==> Projected(step, key, s, a).None?
  {
    var x, y := BySequence(key, a), BySequence(key, b);
    SortSorts(key, a);
    SortSorts(key, b);
    SuccessIsConsistent(step, key, s, map[], x);
    SuccessIsConsistent(step, key, s, map[], y);
    if Consistent(key, a) {
      FoldsTheFresh(step, key, s, map[], x);
      FoldsTheFresh(step, key, s, map[], y);
      FreshElements(key, map[], x);
      FreshElements(key, map[], y);
      StrictIsUnique(key, Fresh(key, map[], x), Fresh(key, map[], y));
    }
  }

  // ---------- Folds that describe what they have read ----------

  /** Every event may follow those before it. */
  ghost predicate Admitted<E(!new)>(may: (seq<E>, E) -> bool, events: seq<E>) {
    forall i | 0 <= i < |events| :: may(events[..i], events[i])
  }

  /** A fold whose every state is a description of the events read so far is that description. */
  lemma {:induction false} FoldDescribes<S(!new), E(!new)>(
    step: (S, E) -> Option<S>, may: (seq<E>, E) -> bool, described: seq<E> -> S, done: seq<E>, events: seq<E>)
    requires forall d, e | Admitted(may, d) :: step(described(d), e) == if may(d, e) then Some(described(d + [e])) else None
    requires Admitted(may, done)
    ensures Fold(step, described(done), events) == if Admitted(may, done + events) then Some(described(done + events)) else None
    decreases |events|
  {
    if events == [] {
      assert done + events == done;
    } else {
      var e, rest := events[0], events[1..];
      assert done + events == done + [e] + rest;
      assert (done + events)[..|done|] == done && (done + events)[|done|] == e;
      if may(done, e) {
        AdmittedGrows(may, done, e);
        FoldDescribes(step, may, described, done + [e], rest);
      } else {
        assert !Admitted(may, done + events);
      }
    }
  }

  /** The distinct events of a list, in order of sequence. */
  ghost function InOrder<E>(key: E -> int, events: seq<E>): seq<E> { Fresh(key, map[], BySequence(key, events)) }

  lemma InOrderIsSorted<E(!new)>(key: E -> int, events: seq<E>)
    requires Consistent(key, events)
    ensures IsStrict(key, InOrder(key, events)) && SameElements(InOrder(key, events), events)
  {
    SortSorts(key, events);
    FreshElements(key, map[], BySequence(key, events));
  }

  /** Such a fold over distinct events in order of sequence: its result is the description of
      those events, and it is refused when two differ under one sequence or one may not follow. */
  lemma ProjectedDescribes<S(!new), E(!new)>(
    step: (S, E) -> Option<S>, key: E -> int, may: (seq<E>, E) -> bool, described: seq<E> -> S, events: seq<E>)
    requires forall d, e | Admitted(may, d) :: step(described(d), e) == if may(d, e) then Some(described(d + [e])) else None
    ensures Projected(step, key, described([]), events)
         == if Consistent(key, events) && Admitted(may, InOrder(key, events)) then Some(described(InOrder(key, events))) else None
  {
    var sorted, once := BySequence(key, events), InOrder(key, events);
    SortSorts(key, events);
    SuccessIsConsistent(step, key, described([]), map[], sorted);
    if Consistent(key, events) {
      FoldsTheFresh(step, key, described([]), map[], sorted);
      FoldDescribes(step, may, described, [], once);
      assert [] + once == once;
    }
  }

  lemma AdmittedGrows<E(!new)>(may: (seq<E>, E) -> bool, done: seq<E>, e: E)
    requires Admitted(may, done) && may(done, e)
    ensures Admitted(may, done + [e])
  {
    var all := done + [e];
    forall i | 0 <= i < |all| ensures may(all[..i], all[i]) {
      if i < |done| { assert all[..i] == done[..i] && may(done[..i], done[i]); } else { assert all[..i] == done; }
    }
  }

  /** The keys of the events, in the order in which they first appear. */
  function Keys<E(!new), K(==, !new)>(key: E -> K, events: seq<E>): (keys: seq<K>)
    ensures forall i, j | 0 <= i < j < |keys| :: keys[i] != keys[j]
    ensures forall k :: k in keys <==> exists e :: e in events && key(e) == k
  {
    if events == [] then []
    else
      var n := |events| - 1;
      var earlier := Keys(key, events[..n]);
      assert forall e :: e in events <==> e in events[..n] || e == events[n];
      if key(events[n]) in earlier then earlier else earlier + [key(events[n])]
  }

  /** One entry for each key, in that order. */
  function Table<E(!new), K(==, !new), T>(key: E -> K, entry: (seq<E>, K) -> T, events: seq<E>): (table: seq<T>)
    ensures |table| == |Keys(key, events)|
    ensures forall i | 0 <= i < |table| :: table[i] == entry(events, Keys(key, events)[i])
  {
    var keys := Keys(key, events);
    seq(|keys|, i requires 0 <= i < |keys| => entry(events, keys[i]))
  }

  /** With one more event, the entry of its key changes or is added, where no other depends on it. */
  lemma TableGrows<E(!new), K(!new), T>(key: E -> K, entry: (seq<E>, K) -> T, done: seq<E>, e: E)
    requires forall k | k != key(e) :: entry(done + [e], k) == entry(done, k)
    ensures var i, changed := IndexBy(k => k, Keys(key, done), key(e)), entry(done + [e], key(e));
            Table(key, entry, done + [e])
            == if i < |Keys(key, done)| then Table(key, entry, done)[i := changed] else Table(key, entry, done) + [changed]
  {
    KeysGrow(key, done, e);
    var keys := Keys(key, done);
    var i := IndexBy(k => k, keys, key(e));
    if i < |keys| {
      forall j | 0 <= j < |keys| && j != i ensures keys[j] != key(e) { assert keys[i] == key(e); }
    } else {
      assert forall j | 0 <= j < |keys| :: keys[j] != key(e);
    }
  }

  lemma KeysGrow<E(!new), K(!new)>(key: E -> K, done: seq<E>, e: E)
    ensures Keys(key, done + [e]) == if key(e) in Keys(key, done) then Keys(key, done) else Keys(key, done) + [key(e)]
  {
    assert (done + [e])[..|done|] == done;
  }

  /** The first event of a kind. */
  function First<E(!new)>(fits: E -> bool, events: seq<E>): (first: Option<E>)
    ensures first.Some? ==> first.value in events && fits(first.value)
    ensures first.None? ==> forall e | e in events :: !fits(e)
  {
    if events == [] then None
    else
      var n := |events| - 1;
      var earlier := First(fits, events[..n]);
      assert forall e :: e in events <==> e in events[..n] || e == events[n];
      if earlier.Some? then earlier else if fits(events[n]) then Some(events[n]) else None
  }

  lemma FirstGrows<E(!new)>(fits: E -> bool, done: seq<E>, e: E)
    ensures First(fits, done + [e]) == if First(fits, done).Some? then First(fits, done) else if fits(e) then Some(e) else None
  {
    assert (done + [e])[..|done|] == done;
  }

  /** The last event of a kind. */
  function Last<E(!new)>(fits: E -> bool, events: seq<E>): (last: Option<E>)
    ensures last.Some? ==> last.value in events && fits(last.value)
  {
    if events == [] then None
    else
      var n := |events| - 1;
      assert forall e :: e in events[..n] ==> e in events;
      if fits(events[n]) then Some(events[n]) else Last(fits, events[..n])
  }

  /** The events of a kind. */
  function Filter<E(!new)>(fits: E -> bool, events: seq<E>): (some: seq<E>)
    ensures forall e :: e in some <==> e in events && fits(e)
  {
    if events == [] then []
    else
      var n := |events| - 1;
      assert forall e :: e in events <==> e in events[..n] || e == events[n];
      Filter(fits, events[..n]) + if fits(events[n]) then [events[n]] else []
  }

  lemma {:induction false} NoneFits<E(!new)>(fits: E -> bool, events: seq<E>)
    requires forall e | e in events :: !fits(e)
    ensures Filter(fits, events) == []
  {
    if events != [] { NoneFits(fits, events[..|events| - 1]); }
  }

  lemma FilterGrows<E(!new)>(fits: E -> bool, done: seq<E>, e: E)
    ensures Filter(fits, done + [e]) == if fits(e) then Filter(fits, done) + [e] else Filter(fits, done)
    ensures Last(fits, done + [e]) == if fits(e) then Some(e) else Last(fits, done)
  {
    assert (done + [e])[..|done|] == done;
    assert Filter(fits, done) + [] == Filter(fits, done);
  }

  // ---------- Folds that do not remember ----------

  /** A step done twice is the step done once. */
  ghost predicate IsIdempotent<S(!new), E(!new)>(step: (S, E) -> Option<S>) {
    forall s, e :: step(s, e).Some? ==> step(step(s, e).value, e) == step(s, e)
  }

  /** On a sorted consistent list an idempotent fold is the fold of its distinct events. */
  lemma {:induction false} IdempotentFold<S(!new), E(!new)>(step: (S, E) -> Option<S>, key: E -> int, s: S, events: seq<E>)
    requires IsIdempotent(step) && IsSorted(key, events) && Consistent(key, events)
    ensures Fold(step, s, events) == FoldOnce(step, key, s, map[], events)
    decreases |events|
  {
    if events != [] {
      InTail(events);
      var e := events[0];
      if step(s, e).Some? { AfterFirst(step, key, s, step(s, e).value, e, map[key(e) := e], events[1..]); }
      assert map[][key(e) := e] == map[key(e) := e];
    }
  }

  /** Having just taken `e`, with only sequences up to its own seen. */
  lemma {:induction false} AfterFirst<S(!new), E(!new)>(step: (S, E) -> Option<S>, key: E -> int, before: S, s: S, e: E, seen: map<int, E>, events: seq<E>)
    requires IsIdempotent(step) && step(before, e) == Some(s) && key(e) in seen && seen[key(e)] == e
    requires forall k | k in seen :: k <= key(e)
    requires IsSorted(key, events) && Consistent(key, [e] + events) && forall f | f in events :: key(e) <= key(f)
    ensures Fold(step, s, events) == FoldOnce(step, key, s, seen, events)
    decreases |events|
  {
    if events != [] {
      InTail(events);
      var f := events[0];
      assert f in [e] + events && e in [e] + events;
      assert Consistent(key, [f] + events[1..]) by { assert [f] + events[1..] == events; }
      if key(f) == key(e) {
        assert f == e && step(s, e) == Some(s);
        AfterFirst(step, key, before, s, e, seen, events[1..]);
      } else {
        assert key(f) !in seen;
        if step(s, f).Some? {
          FirstIsLeast(key, events);
          AfterFirst(step, key, s, step(s, f).value, f, seen[key(f) := f], events[1..]);
        }
      }
    }
  }

}
