/** Reading logs back: the cursor query, and the client that follows a job's log to its end. */
module Follower {
  import opened Model
  import opened Ingest

  // The query.

  function Insert(sorted: seq<Chunk>, c: Chunk): seq<Chunk> {
    if sorted != [] && sorted[|sorted| - 1].no > c.no then Insert(sorted[..|sorted| - 1], c) + [sorted[|sorted| - 1]]
      else sorted + [c]
  }

  /** The rows numbered above the cursor, by number, from a table in insertion order. */
  function ChunksAfter(rows: seq<Chunk>, after: int): seq<Chunk> {
    if rows == [] then []
    else
      var front, last := ChunksAfter(rows[..|rows| - 1], after), rows[|rows| - 1];
      if last.no > after then Insert(front, last) else front
  }

  function CursorPast(page: seq<Chunk>, after: int): int { if page == [] then after else page[|page| - 1].no }

  ghost predicate Ascending(rows: seq<Chunk>) { forall i, k :: 0 <= i < k < |rows| ==> rows[i].no < rows[k].no }

  lemma {:induction false} InsertSorts(sorted: seq<Chunk>, c: Chunk)
    requires Ascending(sorted) && forall i :: 0 <= i < |sorted| ==> sorted[i].no != c.no
    ensures Ascending(Insert(sorted, c)) && multiset(Insert(sorted, c)) == multiset(sorted) + multiset{c}
  {
    if sorted != [] && sorted[|sorted| - 1].no > c.no {
      var front, last := sorted[..|sorted| - 1], sorted[|sorted| - 1];
      InsertSorts(front, c);
      InsertBelow(front, c, Insert(front, c), last.no);
      AppendLast(Insert(front, c), last);
      AddLast(sorted, front, last, Insert(front, c), c);
    }
  }

  lemma AppendLast(r: seq<Chunk>, last: Chunk)
    requires Ascending(r) && forall i :: 0 <= i < |r| ==> r[i].no < last.no
    ensures Ascending(r + [last])
  {}

  lemma AddLast(sorted: seq<Chunk>, front: seq<Chunk>, last: Chunk, r: seq<Chunk>, c: Chunk)
    requires sorted != [] && front == sorted[..|sorted| - 1] && last == sorted[|sorted| - 1]
      && multiset(r) == multiset(front) + multiset{c}
    ensures multiset(r + [last]) == multiset(sorted) + multiset{c}
  {
    assert sorted == front + [last];
  }

  lemma InsertBelow(front: seq<Chunk>, c: Chunk, r: seq<Chunk>, top: int)
    requires multiset(r) == multiset(front) + multiset{c} && c.no < top && forall i ::
      0 <= i < |front| ==> front[i].no < top
    ensures forall i :: 0 <= i < |r| ==> r[i].no < top
  {
    forall i | 0 <= i < |r| ensures r[i].no < top {
      assert r[i] in multiset(r);
      assert r[i] in multiset(front) + multiset{c};
    }
  }

  ghost predicate Above(page: seq<Chunk>, rows: seq<Chunk>, after: int) {
    forall c :: multiset(page)[c] == if c.no > after then multiset(rows)[c] else 0
  }

  lemma NotInPage(page: seq<Chunk>, front: seq<Chunk>, after: int, no: int)
    requires Above(page, front, after) && forall i :: 0 <= i < |front| ==> front[i].no != no
    ensures forall i :: 0 <= i < |page| ==> page[i].no != no
  {
    forall i | 0 <= i < |page| ensures page[i].no != no {
      assert multiset(page)[page[i]] > 0;
      assert page[i] in multiset(front);
    }
  }

  lemma AboveNext(page: seq<Chunk>, page': seq<Chunk>, front: seq<Chunk>, last: Chunk, after: int)
    requires Above(page, front, after)
    requires if last.no > after then multiset(page') == multiset(page) + multiset{last} else page' == page
    ensures Above(page', front + [last], after)
  {}

  /** A page: exactly the rows above the cursor, each once, in ascending order. */
  lemma {:induction false} PageIsExact(rows: seq<Chunk>, after: int)
    requires Keyed(rows)
    ensures Ascending(ChunksAfter(rows, after)) && Above(ChunksAfter(rows, after), rows, after)
  {
    if rows != [] {
      var front, last := rows[..|rows| - 1], rows[|rows| - 1];
      PageIsExact(front, after);
      assert rows == front + [last];
      var page := ChunksAfter(front, after);
      NotInPage(page, front, after, last.no);
      InsertSorts(page, last);
      AboveNext(page, ChunksAfter(rows, after), front, last, after);
    }
  }

  /** The page and cursor a request answers with. */
  method GetLogs(rows: seq<Chunk>, after: int) returns (page: seq<Chunk>, next: int)
    ensures page == ChunksAfter(rows, after) && next == CursorPast(page, after)
  {
    var chunks := ChunksAfter(rows, after);
    page, next := [], after;
    for i := 0 to |chunks|
      invariant page == chunks[..i] && next == CursorPast(page, after)
    {
      page := page + [chunks[i]];
      next := chunks[i].no;
    }
  }

  // The follower.

  /** What one round of reads sees: the job's state first, then the attempt it asks for, then that attempt's table. */
  datatype View = View(terminal: bool, attempt: nat, table: seq<Chunk>)

  datatype Line = Line(attempt: nat, chunk: Chunk)

  datatype Reader = Reader(after: int, attempt: nat, out: seq<Line>)

  const START := Reader(0, 0, [])

  function Tag(a: nat, cs: seq<Chunk>): (ls: seq<Line>)
    ensures |ls| == |cs| && forall i :: 0 <= i < |cs| ==> ls[i] == Line(a, cs[i])
  {
    seq(|cs|, i requires 0 <= i < |cs| => Line(a, cs[i]))
  }

  /**
   One round: a new attempt restarts the cursor; otherwise print the page, and stop at an empty one of a finished
   job.
   */
  function ReadOnce(r: Reader, v: View): (Reader, bool) {
    if r.attempt != 0 && v.attempt != r.attempt then (Reader(0, v.attempt, r.out), false)
    else
      var page := ChunksAfter(v.table, r.after);
      (Reader(CursorPast(page, r.after), v.attempt, r.out + Tag(v.attempt, page)), v.terminal && page == [])
  }

  /** Rounds until it stops, or the views run out; also how many were used. */
  function ReadAll(r: Reader, views: seq<View>): (Reader, bool, nat)
    decreases |views|
  {
    if views == [] then (r, false, 0)
    else
      var (r1, stop) := ReadOnce(r, views[0]);
      if stop then (r1, true, 1)
      else
        var (r2, stopped, n) := ReadAll(r1, views[1..]);
        (r2, stopped, n + 1)
  }

  method Follow(views: seq<View>) returns (out: seq<Line>, stopped: bool, rounds: nat)
    ensures var (r, s, n) := ReadAll(START, views); out == r.out && stopped == s && rounds == n
  {
    out, stopped, rounds := [], false, 0;
    var after, attempt := 0, 0;
    assert views[0..] == views;
    while rounds < |views|
      invariant rounds <= |views|
      invariant var (r, s, n) := ReadAll(Reader(after, attempt, out), views[rounds..]);
                ReadAll(START, views) == (r, s, n + rounds)
    {
      var v := views[rounds];
      assert views[rounds..][0] == v && views[rounds..][1..] == views[rounds + 1..];
      var page, next := GetLogs(v.table, after);
      rounds := rounds + 1;
      if attempt != 0 && v.attempt != attempt {
        after, attempt := 0, v.attempt;
      } else {
        attempt := v.attempt;
        out := out + Tag(v.attempt, page);
        after := next;
        if v.terminal && page == [] {
          return out, true, rounds;
        }
      }
    }
  }

  // What the server's reads have in common.

  /** `v'` was read after `v`. */
  ghost predicate Flows(v: View, v': View) {
    && v.attempt <= v'.attempt
    && (v.attempt == v'.attempt ==> v.table <= v'.table)
    && (v.terminal ==> v'.terminal && v'.attempt == v.attempt && v'.table == v.table)
  }

  /** Distinct positive numbers, in whatever order they arrived; nothing is stored before the first attempt. */
  ghost predicate Proper(v: View) {
    && Keyed(v.table) && (forall i :: 0 <= i < |v.table| ==> v.table[i].no > 0)
    && (v.attempt == 0 ==> v.table == [])
  }

  ghost predicate Trace(views: seq<View>) {
    && (forall i :: 0 <= i < |views| ==> Proper(views[i]))
    && (forall i, k :: 0 <= i < k < |views| ==> Flows(views[i], views[k]))
  }

  // The cursor is the greatest number read.

  /** The greatest number in the table, or 0. */
  function Top(rows: seq<Chunk>): int {
    if rows == [] then 0
    else
      var top := Top(rows[..|rows| - 1]);
      if rows[|rows| - 1].no > top then rows[|rows| - 1].no else top
  }

  lemma {:induction false} TopBounds(rows: seq<Chunk>)
    ensures Top(rows) >= 0 && forall i :: 0 <= i < |rows| ==> rows[i].no <= Top(rows)
    ensures Top(rows) > 0 ==> exists i :: 0 <= i < |rows| && rows[i].no == Top(rows)
  {
    if rows != [] {
      var front := rows[..|rows| - 1];
      TopBounds(front);
      if Top(rows) > 0 && Top(rows) == Top(front) {
        var i :| 0 <= i < |front| && front[i].no == Top(front);
        assert rows[i].no == Top(rows);
      }
    }
  }

  lemma TopGrows(t: seq<Chunk>, t': seq<Chunk>)
    requires t <= t'
    ensures Top(t) <= Top(t')
  {
    TopBounds(t);
    TopBounds(t');
    if Top(t) > 0 { var i :| 0 <= i < |t| && t[i].no == Top(t); assert t'[i].no == Top(t); }
  }

  /** A page holds the rows above the cursor and nothing else. */
  lemma PageHolds(rows: seq<Chunk>, after: int)
    requires Keyed(rows)
    ensures Ascending(ChunksAfter(rows, after))
    ensures forall c :: c in ChunksAfter(rows, after) <==> c in rows && c.no > after
  {
    var page := ChunksAfter(rows, after);
    PageIsExact(rows, after);
    forall c ensures c in page <==> c in rows && c.no > after {
      assert c in page <==> multiset(page)[c] > 0;
      assert c in rows <==> multiset(rows)[c] > 0;
    }
  }

  lemma PageReachesTop(t: seq<Chunk>, page: seq<Chunk>, after: int)
    requires Ascending(page) && (forall c :: c in page <==> c in t && c.no > after) && Top(t) > after >= 0
    ensures page != [] && page[|page| - 1].no == Top(t)
  {
    TopBounds(t);
    var i :| 0 <= i < |t| && t[i].no == Top(t);
    assert t[i] in page;
    var k :| 0 <= k < |page| && page[k] == t[i];
    assert page[|page| - 1] in page;
  }

  lemma PageBelowTop(t: seq<Chunk>, page: seq<Chunk>, after: int)
    requires page != [] && forall c :: c in page <==> c in t && c.no > after
    ensures Top(t) > after
  {
    TopBounds(t);
    assert page[0] in page;
  }

  /** After a page the cursor is the greatest number of the table, and the page is empty only if it was before. */
  lemma CursorIsTop(t: seq<Chunk>, t': seq<Chunk>)
    requires t <= t' && Keyed(t')
    ensures var page := ChunksAfter(t', Top(t));
      CursorPast(page, Top(t)) == Top(t') && (page == [] <==> Top(t') == Top(t))
  {
    PageHolds(t', Top(t));
    TopGrows(t, t');
    TopBounds(t);
    var page := ChunksAfter(t', Top(t));
    if page != [] { PageBelowTop(t', page, Top(t)); }
    if Top(t') > Top(t) { PageReachesTop(t', page, Top(t)); }
  }

  // What is printed.

  /** Printed lines go up by attempt, and by number within one: nothing twice, nothing out of order. */
  ghost predicate InOrder(out: seq<Line>) {
    forall i, k :: 0 <= i < k < |out| ==>
      out[i].attempt < out[k].attempt || (out[i].attempt == out[k].attempt && out[i].chunk.no < out[k].chunk.no)
  }

  ghost predicate Below(out: seq<Line>, a: nat) { forall i :: 0 <= i < |out| ==> out[i].attempt < a }

  lemma InOrderAppends(done: seq<Line>, a: nat, cs: seq<Chunk>)
    requires InOrder(done) && Below(done, a) && Ascending(cs)
    ensures InOrder(done + Tag(a, cs))
  {}

  /** The tables printed from so far of the current attempt, after a round that saw `v`. */
  function ShownNext(prev: nat, shown: seq<seq<Chunk>>, v: View): seq<seq<Chunk>> {
    if prev != 0 && v.attempt != prev then [] else (if v.attempt == prev then shown else []) + [v.table]
  }

  /** The tables printed from of the last attempt, in order. */
  function Shown(prev: nat, shown: seq<seq<Chunk>>, views: seq<View>): seq<seq<Chunk>>
    decreases |views|
  {
    if views == [] then shown else Shown(views[0].attempt, ShownNext(prev, shown, views[0]), views[1..])
  }

  /** The row came late: a table without it had already been printed up to a greater number. */
  ghost predicate Late(shown: seq<seq<Chunk>>, c: Chunk) {
    exists i :: 0 <= i < |shown| && c !in shown[i] && c.no < Top(shown[i])
  }

  function LastOf(shown: seq<seq<Chunk>>): seq<Chunk> { if shown == [] then [] else shown[|shown| - 1] }

  /** Every table printed from continues the ones before. */
  ghost predicate Nested(shown: seq<seq<Chunk>>) { forall i :: 0 <= i < |shown| ==> shown[i] <= LastOf(shown) }

  /** The lines are the rows of the table that did not come late, in ascending order. */
  ghost predicate AllButLate(lines: seq<Chunk>, table: seq<Chunk>, shown: seq<seq<Chunk>>) {
    Ascending(lines) && forall c :: c in lines <==> c in table && !Late(shown, c)
  }

  /** The reader stands at the end of what it was shown, after lines `done` of earlier attempts. */
  ghost predicate Caught(r: Reader, done: seq<Line>, lines: seq<Chunk>, shown: seq<seq<Chunk>>) {
    && r.out == done + Tag(r.attempt, lines) && Below(done, r.attempt) && InOrder(done)
    && (r.attempt == 0 ==> done == [] && lines == [] && LastOf(shown) == [])
    && r.after == Top(LastOf(shown)) && Nested(shown) && AllButLate(lines, LastOf(shown), shown)
  }

  lemma CaughtInOrder(r: Reader, done: seq<Line>, lines: seq<Chunk>, shown: seq<seq<Chunk>>)
    requires Caught(r, done, lines, shown)
    ensures InOrder(r.out)
  {
    InOrderAppends(done, r.attempt, lines);
  }

  lemma NestedNext(shown: seq<seq<Chunk>>, t': seq<Chunk>)
    requires Nested(shown) && LastOf(shown) <= t'
    ensures Nested(shown + [t']) && LastOf(shown + [t']) == t'
  {
    forall i | 0 <= i < |shown| + 1 ensures (shown + [t'])[i] <= t' {
      if i < |shown| { assert shown[i] <= LastOf(shown); }
    }
  }

  /** A row already shown stays late or not. */
  lemma LateStays(shown: seq<seq<Chunk>>, t': seq<Chunk>, c: Chunk)
    requires LastOf(shown) <= t' && c in LastOf(shown)
    ensures Late(shown + [t'], c) <==> Late(shown, c)
  {
    var shown' := shown + [t'];
    if Late(shown, c) {
      var i :| 0 <= i < |shown| && c !in shown[i] && c.no < Top(shown[i]);
      assert shown'[i] == shown[i];
    }
    if Late(shown', c) {
      var i :| 0 <= i < |shown'| && c !in shown'[i] && c.no < Top(shown'[i]);
      assert i < |shown|;
    }
  }

  /** A row new to the table is late exactly if its number is not above the cursor. */
  lemma LateWhenNew(shown: seq<seq<Chunk>>, t': seq<Chunk>, c: Chunk)
    requires Nested(shown) && LastOf(shown) <= t' && Keyed(t') && c in t' && c !in LastOf(shown) && c.no > 0
    ensures Late(shown + [t'], c) <==> c.no <= Top(LastOf(shown))
  {
    var t, shown' := LastOf(shown), shown + [t'];
    TopBounds(t);
    if c.no <= Top(t) {
      var k :| 0 <= k < |t| && t[k].no == Top(t);
      NewHasOtherNumber(t, t', c, k);
      assert shown'[|shown| - 1] == t;
    }
    if Late(shown', c) {
      var i :| 0 <= i < |shown'| && c !in shown'[i] && c.no < Top(shown'[i]);
      assert i < |shown| && shown'[i] == shown[i];
      TopGrows(shown[i], t);
    }
  }

  lemma NewHasOtherNumber(t: seq<Chunk>, t': seq<Chunk>, c: Chunk, k: nat)
    requires t <= t' && Keyed(t') && c in t' && c !in t && k < |t|
    ensures c.no != t[k].no
  {
    var i :| 0 <= i < |t'| && t'[i] == c;
    assert t'[k] == t[k];
  }

  /** The next page completes the lines for the longer table. */
  lemma LinesNext(lines: seq<Chunk>, shown: seq<seq<Chunk>>, t': seq<Chunk>)
    requires AllButLate(lines, LastOf(shown), shown) && Nested(shown) && LastOf(shown) <= t' && Keyed(t')
    requires forall i :: 0 <= i < |t'| ==> t'[i].no > 0
    ensures AllButLate(lines + ChunksAfter(t', Top(LastOf(shown))), t', shown + [t'])
  {
    var t := LastOf(shown);
    var page := ChunksAfter(t', Top(t));
    PageHolds(t', Top(t));
    TopBounds(t);
    forall i, k | 0 <= i < |lines| && 0 <= k < |page| ensures lines[i].no < page[k].no {
      assert lines[i] in lines && page[k] in page;
    }
    AscendingJoin(lines, page);
    forall c ensures c in lines + page <==> c in t' && !Late(shown + [t'], c) { LineIff(lines, page, shown, t', c); }
  }

  lemma AscendingJoin(a: seq<Chunk>, b: seq<Chunk>)
    requires Ascending(a) && Ascending(b) && forall i, k :: 0 <= i < |a| && 0 <= k < |b| ==> a[i].no < b[k].no
    ensures Ascending(a + b)
  {}

  lemma LineIff(lines: seq<Chunk>, page: seq<Chunk>, shown: seq<seq<Chunk>>, t': seq<Chunk>, c: Chunk)
    requires AllButLate(lines, LastOf(shown), shown) && Nested(shown) && LastOf(shown) <= t' && Keyed(t')
    requires forall i :: 0 <= i < |t'| ==> t'[i].no > 0
    requires forall c :: c in page <==> c in t' && c.no > Top(LastOf(shown))
    ensures c in lines + page <==> c in t' && !Late(shown + [t'], c)
  {
    var t := LastOf(shown);
    TopBounds(t);
    if c in t {
      LateStays(shown, t', c);
      assert c in t' && c !in page;
    } else if c in t' {
      LateWhenNew(shown, t', c);
    }
  }

  // Rounds.

  /** Every view still to come continues what the reader has read. */
  ghost predicate Ahead(r: Reader, t: seq<Chunk>, views: seq<View>) {
    forall k :: 0 <= k < |views| ==>
      r.attempt <= views[k].attempt && (r.attempt == views[k].attempt ==> t <= views[k].table)
  }

  lemma TagJoins(done: seq<Line>, a: nat, x: seq<Chunk>, y: seq<Chunk>)
    ensures done + Tag(a, x) + Tag(a, y) == done + Tag(a, x + y)
  {}

  /** A round on the reader's own attempt prints the next page of its table. */
  lemma CatchUp(r: Reader, done: seq<Line>, lines: seq<Chunk>, shown: seq<seq<Chunk>>, v: View)
    returns (lines': seq<Chunk>)
    requires Caught(r, done, lines, shown) && Proper(v) && v.attempt == r.attempt && LastOf(shown) <= v.table
    ensures var (r', stop) := ReadOnce(r, v);
      && Caught(r', done, lines', shown + [v.table]) && r'.attempt == v.attempt
      && (stop <==> v.terminal && Top(v.table) == Top(LastOf(shown)))
  {
    var page := ChunksAfter(v.table, r.after);
    lines' := lines + page;
    CursorIsTop(LastOf(shown), v.table);
    NestedNext(shown, v.table);
    LinesNext(lines, shown, v.table);
    TagJoins(done, r.attempt, lines, page);
  }

  /** Nothing read of an attempt yet. */
  lemma FreshCaught(out: seq<Line>, a: nat)
    requires InOrder(out) && Below(out, a) && (a == 0 ==> out == [])
    ensures Caught(Reader(0, a, out), out, [], [])
  {
    assert Tag(a, []) == [] && out + [] == out;
  }

  /** A round on the first attempt seen. */
  lemma FirstAttempt(r: Reader, v: View) returns (lines': seq<Chunk>)
    requires r == START && Proper(v) && v.attempt > 0
    ensures var (r', stop) := ReadOnce(r, v);
      && Caught(r', [], lines', [v.table]) && r'.attempt == v.attempt && (stop <==> v.terminal && Top(v.table) == 0)
  {
    var r0 := Reader(0, v.attempt, []);
    FreshCaught([], v.attempt);
    lines' := CatchUp(r0, [], [], [], v);
    assert [] + [v.table] == [v.table] && ReadOnce(r, v) == ReadOnce(r0, v);
  }

  lemma BeforeFirst(r: Reader, done: seq<Line>, lines: seq<Chunk>, shown: seq<seq<Chunk>>)
    requires Caught(r, done, lines, shown) && r.attempt == 0
    ensures r == START
  {
    assert done + Tag(0, []) == [];
  }

  /** A round that finds a new attempt starts it afresh. */
  lemma NewAttempt(r: Reader, done: seq<Line>, lines: seq<Chunk>, shown: seq<seq<Chunk>>, v: View)
    requires Caught(r, done, lines, shown) && 0 < r.attempt < v.attempt
    ensures var (r', stop) := ReadOnce(r, v); Caught(r', r.out, [], []) && r'.attempt == v.attempt && !stop
  {
    CaughtInOrder(r, done, lines, shown);
    FreshCaught(r.out, v.attempt);
  }

  lemma Round(r: Reader, done: seq<Line>, lines: seq<Chunk>, shown: seq<seq<Chunk>>, views: seq<View>)
    returns (done': seq<Line>, lines': seq<Chunk>, shown': seq<seq<Chunk>>)
    requires Caught(r, done, lines, shown) && views != [] && Trace(views) && Ahead(r, LastOf(shown), views)
    ensures shown' == ShownNext(r.attempt, shown, views[0])
    ensures var (r', stop) := ReadOnce(r, views[0]); var v := views[0];
      && Caught(r', done', lines', shown') && r'.attempt == v.attempt
      && Ahead(r', LastOf(shown'), views[1..]) && Trace(views[1..])
      && (stop ==> v.terminal && LastOf(shown') == v.table)
      && (r.attempt == v.attempt ==>
            LastOf(shown') == v.table && (stop <==> v.terminal && Top(v.table) == Top(LastOf(shown))))
  {
    var v := views[0];
    assert Proper(v);
    shown' := ShownNext(r.attempt, shown, v);
    if r.attempt == v.attempt {
      done' := done;
      lines' := CatchUp(r, done, lines, shown, v);
    } else if r.attempt == 0 {
      done' := [];
      BeforeFirst(r, done, lines, shown);
      lines' := FirstAttempt(r, v);
      assert [] + [v.table] == [v.table];
    } else {
      NewAttempt(r, done, lines, shown, v);
      done', lines' := r.out, [];
    }
    AheadRest(ReadOnce(r, v).0, LastOf(shown'), views);
  }

  lemma AheadRest(r: Reader, t: seq<Chunk>, views: seq<View>)
    requires views != [] && Trace(views) && r.attempt == views[0].attempt && (t == views[0].table || t == [])
    ensures Ahead(r, t, views[1..]) && Trace(views[1..])
  {
    forall k | 0 <= k < |views| - 1 ensures views[1..][k] == views[k + 1] && Flows(views[0], views[k + 1]) {}
  }

  /** How a reader that has stopped at the last of these views stands. */
  ghost predicate Stopped(out: seq<Line>, before: seq<Line>, lines: seq<Chunk>, v: View, shown: seq<seq<Chunk>>) {
    && v.terminal && Below(before, v.attempt) && out == before + Tag(v.attempt, lines)
    && AllButLate(lines, v.table, shown) && forall i :: 0 <= i < |shown| ==> shown[i] <= v.table
  }

  lemma StopsHere(r: Reader, done: seq<Line>, lines: seq<Chunk>, shown: seq<seq<Chunk>>, v: View)
    requires Caught(r, done, lines, shown) && v.terminal && r.attempt == v.attempt && LastOf(shown) == v.table
    ensures InOrder(r.out) && Stopped(r.out, done, lines, v, shown)
  {
    CaughtInOrder(r, done, lines, shown);
  }

  lemma ShownCons(prev: nat, shown: seq<seq<Chunk>>, views: seq<View>, n: nat)
    requires n < |views|
    ensures Shown(prev, shown, views[..n + 1])
      == Shown(views[0].attempt, ShownNext(prev, shown, views[0]), views[1..][..n])
  {
    assert views[..n + 1][0] == views[0] && views[..n + 1][1..] == views[1..][..n];
  }

  lemma {:induction false} ReadAllGood(
      r: Reader, done: seq<Line>, lines: seq<Chunk>, shown: seq<seq<Chunk>>, views: seq<View>)
    returns (before: seq<Line>, last: seq<Chunk>)
    requires Caught(r, done, lines, shown) && Trace(views) && Ahead(r, LastOf(shown), views)
    ensures var (r', stopped, n) := ReadAll(r, views);
      && InOrder(r'.out) && n <= |views|
      && (stopped ==> n > 0 && Stopped(r'.out, before, last, views[n - 1], Shown(r.attempt, shown, views[..n])))
    decreases |views|
  {
    before, last := done, lines;
    if views == [] {
      CaughtInOrder(r, done, lines, shown);
    } else {
      var (r1, stop) := ReadOnce(r, views[0]);
      var done', lines', shown' := Round(r, done, lines, shown, views);
      if stop {
        StopsHere(r1, done', lines', shown', views[0]);
        before, last := done', lines';
        ShownCons(r.attempt, shown, views, 0);
        assert Shown(views[0].attempt, shown', views[1..][..0]) == shown';
      } else {
        before, last := ReadAllGood(r1, done', lines', shown', views[1..]);
        var n := ReadAll(r1, views[1..]).2;
        ShownCons(r.attempt, shown, views, n);
      }
    }
  }

  lemma StartCaught(views: seq<View>)
    ensures Caught(START, [], [], []) && Ahead(START, [], views)
  {
    FreshCaught([], 0);
  }

  /**
   Following a log, over everything the server may show: nothing is printed twice or out of order; and
   when the follower stops, the job is over and it has printed of the last attempt exactly the rows of the
   table last read that did not come late.
   */
  lemma FollowIsExact(views: seq<View>) returns (before: seq<Line>, lines: seq<Chunk>)
    requires Trace(views)
    ensures var (r, stopped, n) := ReadAll(START, views);
      && InOrder(r.out) && n <= |views|
      && (stopped ==> n > 0 && Stopped(r.out, before, lines, views[n - 1], Shown(0, [], views[..n])))
  {
    StartCaught(views);
    before, lines := ReadAllGood(START, [], [], [], views);
  }

  // When nothing comes late.

  ghost predicate SameRows(a: seq<Chunk>, b: seq<Chunk>) { forall c :: c in a <==> c in b }

  lemma {:induction false} AscendingUnique(a: seq<Chunk>, b: seq<Chunk>)
    requires Ascending(a) && Ascending(b) && SameRows(a, b)
    ensures a == b
    decreases |a|
  {
    assert a != [] ==> a[|a| - 1] in a;
    assert b != [] ==> b[|b| - 1] in b;
    if a != [] {
      LastIsGreatest(a, b[|b| - 1]);
      LastIsGreatest(b, a[|a| - 1]);
      SameLast(a, b);
      AscendingUnique(a[..|a| - 1], b[..|b| - 1]);
    }
  }

  lemma LastIsGreatest(a: seq<Chunk>, c: Chunk)
    requires Ascending(a) && c in a
    ensures c.no <= a[|a| - 1].no && (c.no == a[|a| - 1].no ==> c == a[|a| - 1])
  {
    var i :| 0 <= i < |a| && a[i] == c;
  }

  lemma SameLast(a: seq<Chunk>, b: seq<Chunk>)
    requires Ascending(a) && Ascending(b) && SameRows(a, b) && a != [] && b != [] && a[|a| - 1] == b[|b| - 1]
    ensures SameRows(a[..|a| - 1], b[..|b| - 1])
  {
    var front, front' := a[..|a| - 1], b[..|b| - 1];
    forall c ensures c in front <==> c in front' {
      FrontMembers(a, c);
      FrontMembers(b, c);
    }
  }

  lemma FrontMembers(a: seq<Chunk>, c: Chunk)
    requires Ascending(a) && a != []
    ensures c in a[..|a| - 1] <==> c in a && c != a[|a| - 1]
  {
    var front := a[..|a| - 1];
    assert a == front + [a[|a| - 1]];
    if c in front { var i :| 0 <= i < |front| && front[i] == c; assert a[i].no < a[|a| - 1].no; }
  }

  /** The whole table is printed exactly when no row of it came late. */
  lemma CompleteIffNoneLate(lines: seq<Chunk>, table: seq<Chunk>, shown: seq<seq<Chunk>>)
    requires AllButLate(lines, table, shown) && Keyed(table) && forall i :: 0 <= i < |table| ==> table[i].no > 0
    ensures lines == ChunksAfter(table, 0) <==> forall c :: c in table ==> !Late(shown, c)
  {
    PageHolds(table, 0);
    forall c ensures c in ChunksAfter(table, 0) <==> c in table {
      if c in table { var i :| 0 <= i < |table| && table[i] == c; }
    }
    if forall c :: c in table ==> !Late(shown, c) { AscendingUnique(lines, ChunksAfter(table, 0)); }
  }

  lemma PrefixHolds(table: seq<Chunk>, t: seq<Chunk>, k: nat)
    requires t <= table && k < |table|
    ensures k < |t| ==> table[k] in t
  {}

  /** No row of a table filled in ascending order comes late. */
  lemma AscendingNeverLate(table: seq<Chunk>, shown: seq<seq<Chunk>>, c: Chunk)
    requires Ascending(table) && c in table && c.no > 0 && forall i :: 0 <= i < |shown| ==> shown[i] <= table
    ensures !Late(shown, c)
  {
    var k :| 0 <= k < |table| && table[k] == c;
    forall i | 0 <= i < |shown| && c !in shown[i] ensures c.no >= Top(shown[i]) {
      var t := shown[i];
      PrefixHolds(table, t, k);
      TopBounds(t);
      if Top(t) > 0 { var m :| 0 <= m < |t| && t[m].no == Top(t); assert table[m] == t[m]; }
    }
  }

  /** Such a table is printed as it is. */
  lemma InOrderPrintedWhole(lines: seq<Chunk>, table: seq<Chunk>, shown: seq<seq<Chunk>>)
    requires AllButLate(lines, table, shown) && Ascending(table) && (forall i :: 0 <= i < |table| ==> table[i].no > 0)
    requires forall i :: 0 <= i < |shown| ==> shown[i] <= table
    ensures lines == table
  {
    forall c | c in table ensures !Late(shown, c) {
      var i :| 0 <= i < |table| && table[i] == c;
      AscendingNeverLate(table, shown, c);
    }
    AscendingUnique(lines, table);
  }

  /** Lateness does lose a row: number 1 arrives after number 2 was printed. */
  lemma LateRowIsMissed(views: seq<View>, n: nat)
    requires n > 0 && views == [View(false, n, [Chunk(2, [])]), View(true, n, [Chunk(2, []), Chunk(1, [])])]
    ensures ReadAll(START, views).1 && ReadAll(START, views).0.out == [Line(n, Chunk(2, []))]
  {
    var r := Reader(2, n, [Line(n, Chunk(2, []))]);
    FirstRoundPrints(views[0], n, r);
    LateRoundPrintsNothing(views[1], n, r);
    assert views[1..][0] == views[1];
    assert ReadAll(r, views[1..]) == (r, true, 1);
  }

  lemma FirstRoundPrints(v: View, n: nat, r: Reader)
    requires n > 0 && v == View(false, n, [Chunk(2, [])]) && r == Reader(2, n, [Line(n, Chunk(2, []))])
    ensures ReadOnce(START, v) == (r, false)
  {
    assert v.table[..0] == [] && ChunksAfter([], 0) == [];
    assert ChunksAfter(v.table, 0) == [Chunk(2, [])];
    assert Tag(n, [Chunk(2, [])]) == r.out && [] + r.out == r.out;
    assert START.out + Tag(n, ChunksAfter(v.table, START.after)) == r.out;
  }

  lemma LateRoundPrintsNothing(v: View, n: nat, r: Reader)
    requires n > 0 && v == View(true, n, [Chunk(2, []), Chunk(1, [])]) && r == Reader(2, n, [Line(n, Chunk(2, []))])
    ensures ReadOnce(r, v) == (r, true)
  {
    assert v.table[..1] == [Chunk(2, [])] && v.table[..1][..0] == [] && ChunksAfter([], 2) == [];
    assert ChunksAfter(v.table[..1], 2) == [];
    assert ChunksAfter(v.table, 2) == [];
    assert r.out + Tag(n, []) == r.out;
  }

  // Stopping.

  lemma ReadAllStep(r: Reader, views: seq<View>)
    requires views != []
    ensures var (r1, stop) := ReadOnce(r, views[0]); var (_, stopped, n) := ReadAll(r, views);
      if stop then stopped && n == 1 else stopped == ReadAll(r1, views[1..]).1 && n == ReadAll(r1, views[1..]).2 + 1
  {}

  /** A reader that has caught up with a finished attempt stops at once. */
  lemma StopsCaughtUp(r: Reader, done: seq<Line>, lines: seq<Chunk>, shown: seq<seq<Chunk>>, views: seq<View>)
    requires views != [] && Trace(views) && views[0].terminal && r.attempt == views[0].attempt
    requires Caught(r, done, lines, shown) && LastOf(shown) == views[0].table && Ahead(r, LastOf(shown), views)
    ensures ReadAll(r, views).1 && ReadAll(r, views).2 == 1
  {
    var _, _, _ := Round(r, done, lines, shown, views);
    ReadAllStep(r, views);
  }

  /** One on the attempt stops within two rounds. */
  lemma StopsInTwo(r: Reader, done: seq<Line>, lines: seq<Chunk>, shown: seq<seq<Chunk>>, views: seq<View>)
    requires |views| >= 2 && Trace(views) && views[0].terminal && r.attempt == views[0].attempt
    requires Caught(r, done, lines, shown) && Ahead(r, LastOf(shown), views)
    ensures ReadAll(r, views).1 && ReadAll(r, views).2 <= 2
  {
    var done', lines', shown' := Round(r, done, lines, shown, views);
    var (r', stop) := ReadOnce(r, views[0]);
    ReadAllStep(r, views);
    if !stop {
      assert Flows(views[0], views[1]) && views[1..][0] == views[1];
      StopsCaughtUp(r', done', lines', shown', views[1..]);
    }
  }

  /** It does stop: at most two rounds after the first one that saw the job over, whatever the order of the rows. */
  lemma {:induction false} FollowStops(
      r: Reader, done: seq<Line>, lines: seq<Chunk>, shown: seq<seq<Chunk>>, views: seq<View>, i: nat)
    requires Caught(r, done, lines, shown) && Trace(views) && Ahead(r, LastOf(shown), views)
    requires i + 2 < |views| && views[i].terminal
    ensures ReadAll(r, views).1 && ReadAll(r, views).2 <= i + 3
    decreases |views|
  {
    var done', lines', shown' := Round(r, done, lines, shown, views);
    var (r', stop) := ReadOnce(r, views[0]);
    ReadAllStep(r, views);
    if !stop {
      if i > 0 {
        FollowStops(r', done', lines', shown', views[1..], i - 1);
      } else {
        assert Flows(views[0], views[1]) && views[1..][0] == views[1];
        StopsInTwo(r', done', lines', shown', views[1..]);
      }
    }
  }

  // Nothing is made up.

  /** The line was read: some view of its attempt holds its chunk. */
  ghost predicate WasRead(l: Line, views: seq<View>) {
    exists k :: 0 <= k < |views| && views[k].attempt == l.attempt && l.chunk in views[k].table
  }

  ghost predicate AllRead(out: seq<Line>, from: nat, views: seq<View>) {
    forall i :: from <= i < |out| ==> WasRead(out[i], views)
  }

  lemma {:induction false} PageIsFromTable(rows: seq<Chunk>, after: int)
    ensures forall i :: 0 <= i < |ChunksAfter(rows, after)| ==> ChunksAfter(rows, after)[i] in rows
  {
    if rows != [] {
      PageIsFromTable(rows[..|rows| - 1], after);
      InsertIsFrom(ChunksAfter(rows[..|rows| - 1], after), rows[|rows| - 1]);
    }
  }

  lemma {:induction false} InsertIsFrom(sorted: seq<Chunk>, c: Chunk)
    ensures forall i :: 0 <= i < |Insert(sorted, c)| ==> Insert(sorted, c)[i] == c || Insert(sorted, c)[i] in sorted
  {
    if sorted != [] && sorted[|sorted| - 1].no > c.no { InsertIsFrom(sorted[..|sorted| - 1], c); }
  }

  lemma RoundRead(r: Reader, v: View, rest: seq<View>)
    ensures var r' := ReadOnce(r, v).0;
      |r.out| <= |r'.out| && r'.out[..|r.out|] == r.out && AllRead(r'.out, |r.out|, [v] + rest)
  {
    PageIsFromTable(v.table, r.after);
    var r' := ReadOnce(r, v).0;
    forall i | |r.out| <= i < |r'.out| ensures WasRead(r'.out[i], [v] + rest) {
      assert ([v] + rest)[0] == v && r'.out[i].chunk in v.table;
    }
  }

  lemma ReadLater(out: seq<Line>, from: nat, v: View, rest: seq<View>)
    requires AllRead(out, from, rest)
    ensures AllRead(out, from, [v] + rest)
  {
    forall i | from <= i < |out| ensures WasRead(out[i], [v] + rest) {
      var k :| 0 <= k < |rest| && rest[k].attempt == out[i].attempt && out[i].chunk in rest[k].table;
      assert ([v] + rest)[k + 1] == rest[k];
    }
  }

  /** Nothing is printed that was not read. */
  lemma {:induction false} PrintedWasRead(r: Reader, views: seq<View>)
    ensures var r' := ReadAll(r, views).0;
      |r.out| <= |r'.out| && r'.out[..|r.out|] == r.out && AllRead(r'.out, |r.out|, views)
    decreases |views|
  {
    if views != [] {
      var v, rest := views[0], views[1..];
      assert views == [v] + rest;
      var (r1, stop) := ReadOnce(r, v);
      RoundRead(r, v, rest);
      if !stop {
        PrintedWasRead(r1, rest);
        var r' := ReadAll(r1, rest).0;
        ReadLater(r'.out, |r1.out|, v, rest);
        forall i | |r.out| <= i < |r'.out| ensures WasRead(r'.out[i], views) {
          if i < |r1.out| { assert r'.out[i] == r1.out[i]; }
        }
        assert r'.out[..|r.out|] == r'.out[..|r1.out|][..|r.out|];
      }
    }
  }
}
