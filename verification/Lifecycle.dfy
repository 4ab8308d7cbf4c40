/** The lifecycle page's rows (kite-momentum-rebalancer/app/lifecycle.py). It judges each stop itself and
    takes the rest from the reconciler's issues; the two must agree. */
module Lifecycle {
  import opened Options
  import opened Reconcile

  datatype StopState = Armed | NakedStop | Missing | Oversized | Undersized | TriggeredUnfilled | Unverified

  datatype Judged = Judged(state: StopState, quantity: Option<int>)

  /** `judge_stop`. */
  function JudgeStop(p: Position, gtts: Option<map<string, Gtt>>): Judged {
    match p.gtt
    case None => Judged(NakedStop, None)
    case Some(id) =>
      if SIMULATED_GTT_PREFIX <= id then Judged(Armed, Some(p.open))
      else
        match gtts
        case None => Judged(Unverified, None)
        case Some(rows) =>
          if id !in rows || rows[id].status.Gone? then Judged(Missing, None)
          else if rows[id].status == Triggered then Judged(TriggeredUnfilled, rows[id].quantity)
          else
            match rows[id].quantity
            case None => Judged(Armed, Some(p.open))
            case Some(q) =>
              if q > p.open then Judged(Oversized, Some(q))
              else if q < p.open then Judged(Undersized, Some(q))
              else Judged(Armed, Some(q))
  }

  /** The issue kind a stop state stands for; none for an armed or an unverified stop. */
  function KindOf(s: StopState): Option<Kind> {
    match s
    case NakedStop => Some(Naked)
    case Missing => Some(GttMissing)
    case Oversized => Some(GttOversized)
    case Undersized => Some(GttUndersized)
    case TriggeredUnfilled => Some(GttTriggeredUnfilled)
    case _ => None
  }

  /** On the same list of stop orders the page's state is the reconciler's stop finding; and it claims a stop
      is armed only with the broker's quantity for it, the position's own, or none given. */
  lemma PagesAgree(p: Position, broker: Reads)
    ensures var s, f := JudgeStop(p, broker.gtts).state, StopFinding(p, broker);
            && KindOf(s) == (if f.Some? then Some(f.value.0) else None)
            && (s == Unverified <==> broker.gtts.None? && p.gtt.Some? && !(SIMULATED_GTT_PREFIX <= p.gtt.value))
            && (s == Armed ==> JudgeStop(p, broker.gtts).quantity == Some(p.open))
  {
  }

  /** An issue as the page reads it from a store. */
  datatype OpenIssue = OpenIssue(key: Key, entry: Entry)

  /** A row of the page; of a row's many fields these are the ones judged here. */
  datatype PageRow = PageRow(sleeve: string, position: int, judged: Judged, issues: seq<OpenIssue>)

  /** `TradeLifecycle.resolved`. */
  predicate IsResolved(r: PageRow) {
    r.judged.state == Armed && r.issues == []
  }

  /** The issues of one position, in the order given. */
  function Mine(issues: seq<OpenIssue>, sleeve: string, position: int): seq<OpenIssue> {
    if issues == [] then []
    else
      var last := issues[|issues| - 1];
      Mine(issues[..|issues| - 1], sleeve, position)
      + if last.key.sleeve == sleeve && last.key.position == position then [last] else []
  }

  lemma {:induction false} MineIs(issues: seq<OpenIssue>, sleeve: string, position: int, i: OpenIssue)
    ensures i in Mine(issues, sleeve, position) <==> i in issues && i.key.sleeve == sleeve && i.key.position == position
  {
    if issues != [] {
      MineIs(issues[..|issues| - 1], sleeve, position, i);
      assert issues == issues[..|issues| - 1] + [issues[|issues| - 1]];
    }
  }

  function RowOf(sleeve: string, p: Position, gtts: Option<map<string, Gtt>>, issues: seq<OpenIssue>): PageRow {
    PageRow(sleeve, p.id, JudgeStop(p, gtts), Mine(issues, sleeve, p.id))
  }

  function RowsOf(sleeve: string, book: seq<Position>, gtts: Option<map<string, Gtt>>,
                  issues: seq<OpenIssue>): seq<PageRow>
  {
    if book == [] then []
    else
      var p := book[|book| - 1];
      RowsOf(sleeve, book[..|book| - 1], gtts, issues) + if p.open > 0 then [RowOf(sleeve, p, gtts, issues)] else []
  }

  const SLEEVES := ["swing", "twt", "vbt"]

  function Page(names: seq<string>, positions: map<string, seq<Position>>, gtts: Option<map<string, Gtt>>,
                issues: seq<OpenIssue>): seq<PageRow>
  {
    if names == [] then []
    else
      var name := names[|names| - 1];
      Page(names[..|names| - 1], positions, gtts, issues)
      + if name in positions then RowsOf(name, positions[name], gtts, issues) else []
  }

  /** The `by_position` dict. */
  method GroupByPosition(issues: seq<OpenIssue>) returns (grouped: map<(string, int), seq<OpenIssue>>)
    ensures forall sleeve, position :: Get(grouped, (sleeve, position), []) == Mine(issues, sleeve, position)
  {
    grouped := map[];
    for i := 0 to |issues|
      invariant forall sleeve, position :: Get(grouped, (sleeve, position), []) == Mine(issues[..i], sleeve, position)
    {
      assert issues[..i + 1][..i] == issues[..i];
      var at := (issues[i].key.sleeve, issues[i].key.position);
      grouped := grouped[at := Get(grouped, at, []) + [issues[i]]];
    }
    assert issues[..|issues|] == issues;
  }

  /** One sleeve's rows, appended. */
  method AppendRows(rows: seq<PageRow>, name: string, book: seq<Position>, gtts: Option<map<string, Gtt>>,
                    grouped: map<(string, int), seq<OpenIssue>>, ghost issues: seq<OpenIssue>)
    returns (more: seq<PageRow>)
    requires forall sleeve, position :: Get(grouped, (sleeve, position), []) == Mine(issues, sleeve, position)
    ensures more == rows + RowsOf(name, book, gtts, issues)
  {
    more := rows;
    for j := 0 to |book|
      invariant more == rows + RowsOf(name, book[..j], gtts, issues)
    {
      assert book[..j + 1][..j] == book[..j];
      if book[j].open > 0 {
        more := more + [PageRow(name, book[j].id, JudgeStop(book[j], gtts), Get(grouped, (name, book[j].id), []))];
      }
    }
    assert book[..|book|] == book;
  }

  /** `build_rows`, before its rows are sorted. */
  method BuildRows(positions: map<string, seq<Position>>, gtts: Option<map<string, Gtt>>, issues: seq<OpenIssue>)
    returns (rows: seq<PageRow>)
    ensures rows == Page(SLEEVES, positions, gtts, issues)
  {
    var grouped := GroupByPosition(issues);
    rows := [];
    for i := 0 to |SLEEVES|
      invariant rows == Page(SLEEVES[..i], positions, gtts, issues)
    {
      assert SLEEVES[..i + 1][..i] == SLEEVES[..i];
      if SLEEVES[i] in positions {
        rows := AppendRows(rows, SLEEVES[i], positions[SLEEVES[i]], gtts, grouped, issues);
      }
    }
    assert SLEEVES[..|SLEEVES|] == SLEEVES;
  }

  /** The issues a store shows: its open map, listed. */
  ghost predicate Lists(issues: seq<OpenIssue>, open: map<Key, Entry>) {
    forall k, e :: OpenIssue(k, e) in issues <==> k in open && open[k] == e
  }

  /** After a pass whose reads all succeed, the page, built on the same stop orders and the pass's issues,
      shows a position as resolved exactly when the reconciler has no finding on it. */
  lemma ResolvedIffClean(open: map<Key, Entry>, all: seq<Sleeve>, broker: Reads, now: int, j: nat, p: Position,
                         issues: seq<OpenIssue>)
    requires UniqueNames(all) && j < |all| && all[j].book.Some? && UniqueIds(all[j].book.value)
    requires p in all[j].book.value && p.open > 0 && FullyRead(broker)
    requires Lists(issues, Pass(open, all, all, broker, now))
    ensures IsResolved(RowOf(all[j].name, p, broker.gtts, issues))
            <==> Judge(all[j].name, p, broker, Total(all, p.symbol)) == []
  {
    var name, book := all[j].name, all[j].book.value;
    var after := Pass(open, all, all, broker, now);
    var mine := Mine(issues, name, p.id);
    var found := Judge(name, p, broker, Total(all, p.symbol));
    PagesAgree(p, broker);
    if mine != [] {
      MineIs(issues, name, p.id, mine[0]);
      var k := mine[0].key;
      assert OpenIssue(k, mine[0].entry) in issues;
      PassIsExact(open, all, broker, now, j, k);
      var i :| IsFinding(i, name, book, broker, all) && KeyOf(i) == k;
      FindingIsOn(name, book, broker, all, i, p);
    }
    if found != [] {
      var i := found[0];
      JudgeFacts(name, p, broker, Total(all, p.symbol), i);
      assert i in found;
      assert IsFinding(i, name, book, broker, all);
      PassIsExact(open, all, broker, now, j, KeyOf(i));
      var shown := OpenIssue(KeyOf(i), after[KeyOf(i)]);
      assert shown in issues;
      MineIs(issues, name, p.id, shown);
    }
  }

  lemma {:induction false} FindingIsOn(name: string, book: seq<Position>, broker: Reads, all: seq<Sleeve>, i: Issue,
                                       p: Position)
    requires UniqueIds(book) && p in book && p.id == i.position && IsFinding(i, name, book, broker, all)
    ensures i in Judge(name, p, broker, Total(all, p.symbol))
  {
    var q :| q in book && q.open > 0 && i in Judge(name, q, broker, Total(all, q.symbol));
    JudgeFacts(name, q, broker, Total(all, q.symbol), i);
    var a :| 0 <= a < |book| && book[a] == q;
    var b :| 0 <= b < |book| && book[b] == p;
    assert a == b;
  }

  // ----- the page -----

  /** One row of the page: an open position of one of its sleeves. */
  ghost predicate IsRow(r: PageRow, names: seq<string>, positions: map<string, seq<Position>>,
                        gtts: Option<map<string, Gtt>>, issues: seq<OpenIssue>) {
    exists p :: RowFor(r, p, names, positions, gtts, issues)
  }

  ghost predicate RowFor(r: PageRow, p: Position, names: seq<string>, positions: map<string, seq<Position>>,
                         gtts: Option<map<string, Gtt>>, issues: seq<OpenIssue>) {
    && r.sleeve in names && r.sleeve in positions && p in positions[r.sleeve] && p.open > 0
    && r == RowOf(r.sleeve, p, gtts, issues)
  }

  lemma {:induction false} RowsOfAre(name: string, book: seq<Position>, gtts: Option<map<string, Gtt>>,
                                     issues: seq<OpenIssue>, r: PageRow)
    ensures r in RowsOf(name, book, gtts, issues)
        <==> exists p :: p in book && p.open > 0 && r == RowOf(name, p, gtts, issues)
  {
    if book != [] {
      var front, last := book[..|book| - 1], book[|book| - 1];
      RowsOfAre(name, front, gtts, issues, r);
      assert book == front + [last];
    }
  }

  /** The page holds a row for exactly the open positions of its sleeves. */
  lemma {:induction false} PageIs(names: seq<string>, positions: map<string, seq<Position>>,
                                  gtts: Option<map<string, Gtt>>, issues: seq<OpenIssue>, r: PageRow)
    ensures r in Page(names, positions, gtts, issues) <==> IsRow(r, names, positions, gtts, issues)
  {
    if names != [] {
      var front, last := names[..|names| - 1], names[|names| - 1];
      PageIs(front, positions, gtts, issues, r);
      assert names == front + [last];
      if last in positions {
        RowsOfAre(last, positions[last], gtts, issues, r);
      }
      if IsRow(r, names, positions, gtts, issues) {
        var p :| RowFor(r, p, names, positions, gtts, issues);
        if r.sleeve in front {
          assert RowFor(r, p, front, positions, gtts, issues);
        }
      }
      if IsRow(r, front, positions, gtts, issues) {
        var p :| RowFor(r, p, front, positions, gtts, issues);
        assert RowFor(r, p, names, positions, gtts, issues);
      }
      if r in Page(names, positions, gtts, issues) && r !in Page(front, positions, gtts, issues) {
        var p :| p in positions[last] && p.open > 0 && r == RowOf(last, p, gtts, issues);
        assert RowFor(r, p, names, positions, gtts, issues);
      }
    }
  }

  /** And one for each: no two rows name one position. */
  predicate OneEach(rows: seq<PageRow>) {
    forall i, j :: 0 <= i < j < |rows| ==> rows[i].sleeve != rows[j].sleeve || rows[i].position != rows[j].position
  }

  lemma {:induction false} RowsOfOneEach(name: string, book: seq<Position>, gtts: Option<map<string, Gtt>>,
                                         issues: seq<OpenIssue>)
    requires UniqueIds(book)
    ensures OneEach(RowsOf(name, book, gtts, issues))
  {
    if book != [] {
      var front, last := book[..|book| - 1], book[|book| - 1];
      RowsOfOneEach(name, front, gtts, issues);
      var rows := RowsOf(name, front, gtts, issues);
      forall i | 0 <= i < |rows| ensures rows[i].position != last.id {
        RowsOfAre(name, front, gtts, issues, rows[i]);
        var p :| p in front && p.open > 0 && rows[i] == RowOf(name, p, gtts, issues);
        var a :| 0 <= a < |front| && front[a] == p;
        assert book[a] == p;
      }
    }
  }

  lemma {:induction false} PageOneEach(names: seq<string>, positions: map<string, seq<Position>>,
                                       gtts: Option<map<string, Gtt>>, issues: seq<OpenIssue>)
    requires forall i, j :: 0 <= i < j < |names| ==> names[i] != names[j]
    requires forall name :: name in positions ==> UniqueIds(positions[name])
    ensures OneEach(Page(names, positions, gtts, issues))
  {
    if names != [] {
      var front, last := names[..|names| - 1], names[|names| - 1];
      PageOneEach(front, positions, gtts, issues);
      if last in positions {
        RowsOfOneEach(last, positions[last], gtts, issues);
        var rows, more := Page(front, positions, gtts, issues), RowsOf(last, positions[last], gtts, issues);
        forall i, j | 0 <= i < |rows| && 0 <= j < |more| ensures rows[i].sleeve != more[j].sleeve {
          PageIs(front, positions, gtts, issues, rows[i]);
          RowsOfAre(last, positions[last], gtts, issues, more[j]);
          assert last !in front;
        }
        SplitOneEach(rows, more);
      }
    }
  }

  lemma SplitOneEach(rows: seq<PageRow>, more: seq<PageRow>)
    requires OneEach(rows) && OneEach(more)
    requires forall i, j :: 0 <= i < |rows| && 0 <= j < |more| ==> rows[i].sleeve != more[j].sleeve
    ensures OneEach(rows + more)
  {
    var all := rows + more;
    forall i, j | 0 <= i < j < |all| ensures all[i].sleeve != all[j].sleeve || all[i].position != all[j].position {
      if i < |rows| <= j {
        assert all[j] == more[j - |rows|];
      }
    }
  }

  /** The books the page is built on are the ones the pass read. */
  ghost predicate BooksOf(positions: map<string, seq<Position>>, all: seq<Sleeve>) {
    forall name :: name in positions
      ==> exists j :: 0 <= j < |all| && all[j].name == name && all[j].book == Some(positions[name])
  }

  /** The page after a full pass: one row for each open position of its sleeves, resolved exactly when the
      reconciler has no finding on that position. */
  lemma {:induction false} PageResolvedIffClean(open: map<Key, Entry>, all: seq<Sleeve>,
                                                positions: map<string, seq<Position>>, broker: Reads,
                                                now: int, issues: seq<OpenIssue>, p: Position, r: PageRow)
    requires UniqueNames(all) && BooksOf(positions, all) && FullyRead(broker)
    requires forall name :: name in positions ==> UniqueIds(positions[name])
    requires Lists(issues, Pass(open, all, all, broker, now))
    ensures OneEach(Page(SLEEVES, positions, broker.gtts, issues))
    ensures r in Page(SLEEVES, positions, broker.gtts, issues) <==> IsRow(r, SLEEVES, positions, broker.gtts, issues)
    ensures RowFor(r, p, SLEEVES, positions, broker.gtts, issues) ==>
              (IsResolved(r) <==> Judge(r.sleeve, p, broker, Total(all, p.symbol)) == [])
  {
    assert SLEEVES[0] == "swing" && SLEEVES[1] == "twt" && SLEEVES[2] == "vbt";
    assert |"swing"| == 5 && "twt"[0] == 't' && "vbt"[0] == 'v';
    PageOneEach(SLEEVES, positions, broker.gtts, issues);
    PageIs(SLEEVES, positions, broker.gtts, issues, r);
    if RowFor(r, p, SLEEVES, positions, broker.gtts, issues) {
      var j :| 0 <= j < |all| && all[j].name == r.sleeve && all[j].book == Some(positions[r.sleeve]);
      ResolvedIffClean(open, all, broker, now, j, p, issues);
    }
  }

  /** Without the broker's list the page resolves no position whose stop is real, whatever the issues say. */
  lemma UnverifiedIsUnresolved(sleeve: string, p: Position, issues: seq<OpenIssue>)
    requires p.gtt.Some? && !(SIMULATED_GTT_PREFIX <= p.gtt.value)
    ensures !IsResolved(RowOf(sleeve, p, None, issues))
  {
  }
}
