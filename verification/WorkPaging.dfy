/** Forward paging of the native work of a session: each page is cut at a number and a size,
    and its cursor holds only while the whole observation stays the same. */
module WorkPaging {
  import opened Options

  /** A row as it is published; `size` is the length of its encoding. */
  datatype Row = Row(work: string, active: bool, size: nat)

  /** The rows in the order of their work ids, and the digest of all that is observed. */
  datatype Observation = Observation(rows: seq<Row>, hash: string)

  datatype Cursor = Cursor(hash: string, offset: nat)

  datatype Page = Page(hash: string, totalCount: nat, items: seq<Row>, next: Option<Cursor>)

  datatype Served = Served(page: Page) | Changed | TooLarge

  const PAGE_BYTES := 192 * 1024

  /** How many rows from the front fit in what is left of a page. */
  function Fitting(rows: seq<Row>, size: nat): (k: nat)
    ensures k <= |rows|
  {
    if rows == [] || size + rows[0].size > PAGE_BYTES then 0 else 1 + Fitting(rows[1..], size + rows[0].size)
  }

  function Window(rows: seq<Row>, offset: nat, limit: nat): seq<Row>
    requires offset <= |rows|
  {
    rows[offset..if offset + limit < |rows| then offset + limit else |rows|]
  }

  function PageWith(o: Observation, offset: nat, items: seq<Row>): Served {
    if offset < |o.rows| && items == [] then TooLarge
    else
      var next := offset + |items|;
      Served(Page(o.hash, |o.rows|, items, if next < |o.rows| then Some(Cursor(o.hash, next)) else None))
  }

  predicate CursorFits(o: Observation, cursor: Cursor) { cursor.hash == o.hash && cursor.offset <= |o.rows| }

  function WorkPage(o: Observation, cursor: Option<Cursor>, limit: nat): Served {
    if cursor.Some? && !CursorFits(o, cursor.value) then Changed
    else
      var offset := if cursor.Some? then cursor.value.offset else 0;
      var window := Window(o.rows, offset, limit);
      PageWith(o, offset, window[..Fitting(window, 0)])
  }

  method NativeWorkPage(o: Observation, cursor: Option<Cursor>, limit: nat) returns (served: Served)
    ensures served == WorkPage(o, cursor, limit)
  {
    var offset := 0;
    if cursor.Some? {
      if cursor.value.hash != o.hash || cursor.value.offset > |o.rows| { return Changed; }
      offset := cursor.value.offset;
    }
    var items := FillPage(Window(o.rows, offset, limit));
    if offset < |o.rows| && items == [] { return TooLarge; }
    var next := offset + |items|;
    return Served(Page(o.hash, |o.rows|, items, if next < |o.rows| then Some(Cursor(o.hash, next)) else None));
  }

  method FillPage(window: seq<Row>) returns (items: seq<Row>)
    ensures items == window[..Fitting(window, 0)]
  {
    items := [];
    var bytes: nat := 0;
    assert window[0..] == window;
    for n := 0 to |window|
      invariant items == window[..n]
      invariant n + Fitting(window[n..], bytes) == Fitting(window, 0)
    {
      assert window[n..][0] == window[n] && window[n..][1..] == window[n + 1..];
      if bytes + window[n].size > PAGE_BYTES { break; }
      items, bytes := items + [window[n]], bytes + window[n].size;
    }
  }

  // ---------- Reading all pages ----------

  /** Following the cursors, while what is observed and the limits may change between reads. */
  function Followed(seen: nat -> Observation, limits: nat -> nat, n: nat, cursor: Option<Cursor>, got: seq<Row>, budget: nat): Option<seq<Row>>
    decreases budget
  {
    if budget == 0 then None
    else
      match WorkPage(seen(n), cursor, limits(n))
      case Changed => None
      case TooLarge => None
      case Served(page) =>
        if page.next.None? then Some(got + page.items)
        else Followed(seen, limits, n + 1, page.next, got + page.items, budget - 1)
  }

  ghost predicate HashesIdentify(seen: nat -> Observation) {
    forall i, j :: seen(i).hash == seen(j).hash ==> seen(i).rows == seen(j).rows
  }

  function OffsetOf(cursor: Option<Cursor>): nat { if cursor.Some? then cursor.value.offset else 0 }

  /** A page holds the rows from its offset on, and its cursor stands right after them. */
  lemma PageCovers(o: Observation, cursor: Option<Cursor>, limit: nat)
    requires WorkPage(o, cursor, limit).Served?
    ensures var page, offset := WorkPage(o, cursor, limit).page, OffsetOf(cursor);
            && offset + |page.items| <= |o.rows| && o.rows[..offset] + page.items == o.rows[..offset + |page.items|]
            && (page.next.None? <==> offset + |page.items| == |o.rows|)
            && (page.next.Some? ==> page.items != [] && page.next.value == Cursor(o.hash, offset + |page.items|))
  {
    var window := Window(o.rows, OffsetOf(cursor), limit);
    assert window[..Fitting(window, 0)] == o.rows[OffsetOf(cursor)..][..Fitting(window, 0)];
  }

  lemma {:induction false} FollowedIsOneObservation(
    seen: nat -> Observation, limits: nat -> nat, n: nat, cursor: Option<Cursor>, got: seq<Row>, budget: nat, first: Observation)
    requires HashesIdentify(seen) && first == seen(0)
    requires if cursor.None? then n == 0 && got == []
             else cursor.value.hash == first.hash && cursor.value.offset <= |first.rows| && got == first.rows[..cursor.value.offset]
    ensures var r := Followed(seen, limits, n, cursor, got, budget); r.Some? ==> r.value == first.rows
    decreases budget
  {
    hide PageWith, Window, Fitting;
    if budget > 0 && WorkPage(seen(n), cursor, limits(n)).Served? {
      PageCovers(seen(n), cursor, limits(n));
      var page := WorkPage(seen(n), cursor, limits(n)).page;
      assert seen(n).hash == first.hash && seen(n).rows == first.rows;
      assert got + page.items == first.rows[..OffsetOf(cursor) + |page.items|];
      if page.next.Some? {
        FollowedIsOneObservation(seen, limits, n + 1, page.next, got + page.items, budget - 1, first);
      } else {
        assert first.rows[..|first.rows|] == first.rows;
      }
    }
  }

  /** However the work changes between the reads, a reading that ends without an error holds
      exactly the rows of the observation it began with. */
  lemma ReadingsAreOneObservation(seen: nat -> Observation, limits: nat -> nat, budget: nat)
    requires HashesIdentify(seen)
    ensures var r := Followed(seen, limits, 0, None, [], budget); r.Some? ==> r.value == seen(0).rows
  {
    FollowedIsOneObservation(seen, limits, 0, None, [], budget, seen(0));
  }

  predicate AllFit(rows: seq<Row>) { forall row | row in rows :: row.size <= PAGE_BYTES }

  /** Every read of a stable observation is served and takes at least one row. */
  lemma PageAdvances(o: Observation, cursor: Option<Cursor>, limit: nat)
    requires AllFit(o.rows) && limit >= 1 && (cursor.Some? ==> CursorFits(o, cursor.value))
    ensures WorkPage(o, cursor, limit).Served?
    ensures OffsetOf(cursor) < |o.rows| ==> WorkPage(o, cursor, limit).page.items != []
  {
    var window := Window(o.rows, OffsetOf(cursor), limit);
    if window != [] { assert window[0] == o.rows[OffsetOf(cursor)] && window[0] in o.rows; }
  }

  lemma {:induction false} FollowedToTheEnd(
    seen: nat -> Observation, limits: nat -> nat, n: nat, cursor: Option<Cursor>, got: seq<Row>, budget: nat, o: Observation)
    requires AllFit(o.rows) && forall i :: seen(i) == o && limits(i) >= 1
    requires cursor.Some? ==> CursorFits(o, cursor.value)
    requires budget >= 1 && budget >= |o.rows| - OffsetOf(cursor)
    ensures Followed(seen, limits, n, cursor, got, budget).Some?
    decreases budget
  {
    hide PageWith, Window, Fitting, AllFit;
    assert seen(n) == o && limits(n) >= 1;
    PageAdvances(o, cursor, limits(n));
    PageCovers(o, cursor, limits(n));
    var page := WorkPage(o, cursor, limits(n)).page;
    if page.next.Some? { FollowedToTheEnd(seen, limits, n + 1, page.next, got + page.items, budget - 1, o); }
  }

  /** Work that stays the same and whose rows each fit a page is read completely, in at most
      as many reads as there are rows, whatever limits are asked for. */
  lemma StableWorkIsReadCompletely(seen: nat -> Observation, limits: nat -> nat, budget: nat, o: Observation)
    requires AllFit(o.rows) && forall i :: seen(i) == o && limits(i) >= 1
    requires budget >= 1 && budget >= |o.rows|
    ensures Followed(seen, limits, 0, None, [], budget) == Some(o.rows)
  {
    FollowedToTheEnd(seen, limits, 0, None, [], budget, o);
    assert seen(0) == o;
    ReadingsAreOneObservation(seen, limits, budget);
  }

  // ---------- How much a page holds ----------

  function Bytes(rows: seq<Row>): nat { if rows == [] then 0 else rows[0].size + Bytes(rows[1..]) }

  lemma {:induction false} FittingIsMost(rows: seq<Row>, size: nat)
    requires size <= PAGE_BYTES
    ensures var k := Fitting(rows, size);
            size + Bytes(rows[..k]) <= PAGE_BYTES && (k < |rows| ==> size + Bytes(rows[..k + 1]) > PAGE_BYTES)
  {
    if rows != [] {
      if size + rows[0].size <= PAGE_BYTES {
        FittingIsMost(rows[1..], size + rows[0].size);
        var k := Fitting(rows[1..], size + rows[0].size);
        assert rows[..k + 1][1..] == rows[1..][..k];
        if k + 1 < |rows| { assert rows[..k + 2][1..] == rows[1..][..k + 1]; }
      } else {
        assert rows[..1][1..] == [];
      }
    }
  }

  /** A cursor is served exactly while what it saw is what is there; the page then holds the most
      rows from its offset that are not too many and not too big, and it is refused only when
      there are rows left and not even one fits. */
  lemma PagesHoldTheMost(o: Observation, cursor: Option<Cursor>, limit: nat) returns (k: nat)
    ensures var served, offset := WorkPage(o, cursor, limit), OffsetOf(cursor);
            && (served.Changed? <==> cursor.Some? && (cursor.value.hash != o.hash || offset > |o.rows|))
            && (!served.Changed? ==>
                  && k <= limit && offset + k <= |o.rows| && Bytes(o.rows[offset..offset + k]) <= 196608
                  && (k < limit && offset + k < |o.rows| ==> Bytes(o.rows[offset..offset + k + 1]) > 196608)
                  && served == if k == 0 && offset < |o.rows| then TooLarge
                               else Served(Page(o.hash, |o.rows|, o.rows[offset..offset + k],
                                                if offset + k < |o.rows| then Some(Cursor(o.hash, offset + k)) else None)))
  {
    hide Fitting, Bytes, Window;
    k := 0;
    if !WorkPage(o, cursor, limit).Changed? { k := WindowHoldsTheMost(o.rows, OffsetOf(cursor), limit); }
  }

  lemma WindowHoldsTheMost(rows: seq<Row>, offset: nat, limit: nat) returns (k: nat)
    requires offset <= |rows|
    ensures k <= limit && offset + k <= |rows| && Bytes(rows[offset..offset + k]) <= PAGE_BYTES
    ensures k < limit && offset + k < |rows| ==> Bytes(rows[offset..offset + k + 1]) > PAGE_BYTES
    ensures Window(rows, offset, limit)[..Fitting(Window(rows, offset, limit), 0)] == rows[offset..offset + k]
  {
    hide Fitting, Bytes;
    var window := Window(rows, offset, limit);
    k := Fitting(window, 0);
    FittingIsMost(window, 0);
    assert window[..k] == rows[offset..offset + k];
    if k < |window| { assert window[..k + 1] == rows[offset..offset + k + 1]; }
  }
}
