/** The two issue stores of kite-momentum-rebalancer/app/reconcile.py and the pass that runs over one. Both
    keep a table whose open rows form one map from (sleeve, position, kind), and both change that map the
    same way, so a pass leaves the same issues in either. */
module IssueStores {
  import opened Options
  import opened Reconcile

  datatype Row = Row(id: nat, key: Key, symbol: string, detail: Detail, seen: int, resolved: Option<int>)

  /** At most one open row a key. */
  predicate OneOpen(rows: seq<Row>) {
    forall i, j :: 0 <= i < j < |rows| && rows[i].resolved.None? && rows[j].resolved.None?
      ==> rows[i].key != rows[j].key
  }

  /** Row ids are serial. */
  predicate Serial(rows: seq<Row>) {
    forall i :: 0 <= i < |rows| ==> rows[i].id == i + 1
  }

  function EntryOf(r: Row): Entry {
    Entry(r.symbol, r.detail, r.seen)
  }

  /** The open issues. */
  function OpenMap(rows: seq<Row>): map<Key, Entry> {
    if rows == [] then map[]
    else
      var r, front := rows[|rows| - 1], OpenMap(rows[..|rows| - 1]);
      if r.resolved.None? then front[r.key := EntryOf(r)] else front
  }

  function OpenCount(rows: seq<Row>): nat {
    if rows == [] then 0 else OpenCount(rows[..|rows| - 1]) + if rows[|rows| - 1].resolved.None? then 1 else 0
  }

  ghost predicate ShownBy(rows: seq<Row>, k: Key, i: int) {
    0 <= i < |rows| && rows[i].resolved.None? && rows[i].key == k
  }

  lemma {:induction false} RowInMap(rows: seq<Row>, i: nat)
    requires OneOpen(rows) && i < |rows| && rows[i].resolved.None?
    ensures rows[i].key in OpenMap(rows) && OpenMap(rows)[rows[i].key] == EntryOf(rows[i])
  {
    if i < |rows| - 1 {
      RowInMap(rows[..|rows| - 1], i);
    }
  }

  lemma {:induction false} KeyInRows(rows: seq<Row>, k: Key) returns (i: int)
    requires k in OpenMap(rows)
    ensures ShownBy(rows, k, i)
  {
    var r := rows[|rows| - 1];
    if r.resolved.None? && r.key == k {
      i := |rows| - 1;
    } else {
      i := KeyInRows(rows[..|rows| - 1], k);
    }
  }

  lemma FrontKeyDiffers(rows: seq<Row>, k: Key)
    requires OneOpen(rows) && rows != [] && rows[|rows| - 1].resolved.None? && k in OpenMap(rows[..|rows| - 1])
    ensures k != rows[|rows| - 1].key
  {
    var i := KeyInRows(rows[..|rows| - 1], k);
    assert rows[..|rows| - 1][i] == rows[i];
  }

  lemma {:induction false} SizeIs(rows: seq<Row>)
    requires OneOpen(rows)
    ensures |OpenMap(rows)| == OpenCount(rows)
  {
    if rows != [] {
      var front, r := rows[..|rows| - 1], rows[|rows| - 1];
      SizeIs(front);
      if r.resolved.None? {
        forall k | k in OpenMap(front) ensures k != r.key {
          FrontKeyDiffers(rows, k);
        }
      }
    }
  }

  lemma {:induction false} OpenMapIs(rows: seq<Row>)
    requires OneOpen(rows)
    ensures forall i :: 0 <= i < |rows| && rows[i].resolved.None? ==>
              rows[i].key in OpenMap(rows) && OpenMap(rows)[rows[i].key] == EntryOf(rows[i])
    ensures forall k :: k in OpenMap(rows) ==> exists i :: ShownBy(rows, k, i)
  {
    forall i | 0 <= i < |rows| && rows[i].resolved.None?
      ensures rows[i].key in OpenMap(rows) && OpenMap(rows)[rows[i].key] == EntryOf(rows[i])
    {
      RowInMap(rows, i);
    }
    forall k | k in OpenMap(rows) ensures exists i :: ShownBy(rows, k, i) {
      var i := KeyInRows(rows, k);
    }
  }

  /** The row a recording updates, or none. */
  lemma UpdateIs(rows: seq<Row>, j: nat, issue: Issue, now: int)
    requires OneOpen(rows) && ShownBy(rows, KeyOf(issue), j)
    ensures var after := rows[j := rows[j].(detail := issue.detail, seen := now)];
            OneOpen(after) && OpenMap(after) == Recorded(OpenMap(rows), issue, now)
  {
    var after := rows[j := rows[j].(detail := issue.detail, seen := now)];
    OpenMapIs(rows);
    OpenMapIs(after);
    forall k ensures k in OpenMap(after) <==> k in Recorded(OpenMap(rows), issue, now) {
      if k in OpenMap(after) {
        var i :| ShownBy(after, k, i);
        assert ShownBy(rows, k, i);
      }
      if k in OpenMap(rows) {
        var i :| ShownBy(rows, k, i);
        assert ShownBy(after, k, i);
      }
    }
    forall k | k in OpenMap(after) ensures OpenMap(after)[k] == Recorded(OpenMap(rows), issue, now)[k] {
      var i :| ShownBy(after, k, i);
      assert i != j ==> after[i] == rows[i];
    }
  }

  lemma AppendIs(rows: seq<Row>, issue: Issue, now: int)
    requires OneOpen(rows) && forall i :: !ShownBy(rows, KeyOf(issue), i)
    ensures var after := rows + [Row(|rows| + 1, KeyOf(issue), issue.symbol, issue.detail, now, None)];
            OneOpen(after) && OpenMap(after) == Recorded(OpenMap(rows), issue, now)
  {
    var r := Row(|rows| + 1, KeyOf(issue), issue.symbol, issue.detail, now, None);
    var after := rows + [r];
    assert after[..|after| - 1] == rows;
    OpenMapIs(rows);
    forall i | 0 <= i < |rows| && rows[i].resolved.None? ensures rows[i].key != r.key {
      assert !ShownBy(rows, KeyOf(issue), i);
    }
  }

  // ----- resolving -----

  predicate Goes(r: Row, sleeve: string, broker: Reads, keep: set<(int, Kind)>) {
    r.resolved.None? && Resolves(r.key, sleeve, broker, keep)
  }

  function After(r: Row, sleeve: string, broker: Reads, keep: set<(int, Kind)>, now: int): Row {
    if Goes(r, sleeve, broker, keep) then r.(resolved := Some(now)) else r
  }

  /** `after` is `rows` with each row that goes resolved. */
  ghost predicate IsResolved(rows: seq<Row>, after: seq<Row>, sleeve: string, broker: Reads, keep: set<(int, Kind)>,
                             now: int)
  {
    |after| == |rows| && forall i :: 0 <= i < |rows| ==> after[i] == After(rows[i], sleeve, broker, keep, now)
  }

  lemma {:induction false} ResolvedAt(rows: seq<Row>, after: seq<Row>, sleeve: string, broker: Reads,
                                      keep: set<(int, Kind)>, now: int, k: Key)
    requires OneOpen(rows) && OneOpen(after) && IsResolved(rows, after, sleeve, broker, keep, now)
    ensures k in OpenMap(after) <==> k in OpenMap(rows) && !Resolves(k, sleeve, broker, keep)
    ensures k in OpenMap(after) ==> OpenMap(after)[k] == OpenMap(rows)[k]
  {
    if k in OpenMap(after) {
      var i := KeyInRows(after, k);
      RowInMap(after, i);
      RowInMap(rows, i);
    } else if k in OpenMap(rows) {
      var i := KeyInRows(rows, k);
      if !Resolves(k, sleeve, broker, keep) {
        RowInMap(after, i);
      }
    }
  }

  lemma {:induction false} ResolvedIs(rows: seq<Row>, after: seq<Row>, sleeve: string, broker: Reads,
                                      keep: set<(int, Kind)>, now: int)
    requires OneOpen(rows) && IsResolved(rows, after, sleeve, broker, keep, now)
    ensures OneOpen(after) && OpenMap(after) == Resolved(OpenMap(rows), sleeve, broker, keep)
    ensures OpenCount(rows) - OpenCount(after) == |OpenMap(rows)| - |OpenMap(after)|
  {
    assert OneOpen(after);
    SizeIs(rows);
    SizeIs(after);
    forall k ensures (k in OpenMap(after) <==> k in Resolved(OpenMap(rows), sleeve, broker, keep))
                     && (k in OpenMap(after) ==> OpenMap(after)[k] == OpenMap(rows)[k])
    {
      ResolvedAt(rows, after, sleeve, broker, keep, now, k);
    }
  }

  lemma CountStep(rows: seq<Row>, i: nat)
    requires i < |rows|
    ensures OpenCount(rows[..i + 1]) == OpenCount(rows[..i]) + if rows[i].resolved.None? then 1 else 0
  {
    assert rows[..i + 1][..i] == rows[..i];
  }

  /** `MemoryIssueStore`: a list, scanned. */
  class MemoryIssueStore {
    var rows: seq<Row>

    ghost predicate Valid()
      reads this
    {
      OneOpen(rows) && Serial(rows)
    }

    constructor ()
      ensures Valid() && OpenMap(rows) == map[]
    {
      rows := [];
    }

    method Record(issue: Issue, now: int)
      requires Valid()
      modifies this
      ensures Valid() && OpenMap(rows) == Recorded(old(OpenMap(rows)), issue, now)
    {
      for i := 0 to |rows|
        invariant rows == old(rows)
        invariant forall j :: 0 <= j < i ==> !ShownBy(rows, KeyOf(issue), j)
      {
        if rows[i].resolved.None? && rows[i].key == KeyOf(issue) {
          UpdateIs(rows, i, issue, now);
          rows := rows[i := rows[i].(detail := issue.detail, seen := now)];
          return;
        }
      }
      AppendIs(rows, issue, now);
      rows := rows + [Row(|rows| + 1, KeyOf(issue), issue.symbol, issue.detail, now, None)];
    }

    method ResolveExcept(sleeve: string, broker: Reads, keep: set<(int, Kind)>, now: int) returns (resolved: int)
      requires Valid()
      modifies this
      ensures Valid() && OpenMap(rows) == Resolved(old(OpenMap(rows)), sleeve, broker, keep)
      ensures resolved == |old(OpenMap(rows))| - |OpenMap(rows)|
    {
      ghost var was := rows;
      resolved := 0;
      for i := 0 to |rows|
        invariant |rows| == |was|
        invariant forall j :: 0 <= j < i ==> rows[j] == After(was[j], sleeve, broker, keep, now)
        invariant forall j :: i <= j < |rows| ==> rows[j] == was[j]
        invariant resolved == OpenCount(was[..i]) - OpenCount(rows[..i])
      {
        ghost var before := rows;
        if Goes(rows[i], sleeve, broker, keep) {
          rows := rows[i := rows[i].(resolved := Some(now))];
          resolved := resolved + 1;
        }
        assert rows[..i] == before[..i];
        CountStep(was, i);
        CountStep(rows, i);
      }
      assert was[..|was|] == was && rows[..|rows|] == rows;
      ResolvedIs(was, rows, sleeve, broker, keep, now);
    }
  }

  /** `PgIssueStore`: an upsert on the partial unique index, and updates by row id over a list of open issues
      read first. */
  class PgIssueStore {
    var rows: seq<Row>

    ghost predicate Valid()
      reads this
    {
      OneOpen(rows) && Serial(rows)
    }

    constructor ()
      ensures Valid() && OpenMap(rows) == map[]
    {
      rows := [];
    }

    /** `open_issues` of one sleeve. */
    method OpenIssues(sleeve: string) returns (open: seq<Row>)
      requires Valid()
      ensures forall r :: r in open <==> r in rows && r.resolved.None? && r.key.sleeve == sleeve
      ensures forall i, j :: 0 <= i < j < |open| ==> open[i].id != open[j].id
    {
      open := [];
      for i := 0 to |rows|
        invariant forall r :: r in open <==> r in rows[..i] && r.resolved.None? && r.key.sleeve == sleeve
        invariant forall r :: r in open ==> r.id <= i
        invariant forall a, b :: 0 <= a < b < |open| ==> open[a].id != open[b].id
      {
        assert rows[..i + 1] == rows[..i] + [rows[i]];
        if rows[i].resolved.None? && rows[i].key.sleeve == sleeve {
          assert forall a :: 0 <= a < |open| ==> open[a] in open && open[a].id <= i;
          open := open + [rows[i]];
        }
      }
      assert rows[..|rows|] == rows;
    }

    /** The row the index finds in conflict. */
    method Conflict(k: Key) returns (at: Option<nat>)
      ensures at.Some? ==> ShownBy(rows, k, at.value)
      ensures at.None? ==> forall i :: !ShownBy(rows, k, i)
    {
      for i := 0 to |rows|
        invariant forall j :: 0 <= j < i ==> !ShownBy(rows, k, j)
      {
        if rows[i].resolved.None? && rows[i].key == k {
          return Some(i);
        }
      }
      return None;
    }

    method Record(issue: Issue, now: int)
      requires Valid()
      modifies this
      ensures Valid() && OpenMap(rows) == Recorded(old(OpenMap(rows)), issue, now)
    {
      var at := Conflict(KeyOf(issue));
      match at {
        case Some(j) =>
          UpdateIs(rows, j, issue, now);
          rows := rows[j := rows[j].(detail := issue.detail, seen := now)];
        case None =>
          AppendIs(rows, issue, now);
          rows := rows + [Row(|rows| + 1, KeyOf(issue), issue.symbol, issue.detail, now, None)];
      }
    }

    method ResolveExcept(sleeve: string, broker: Reads, keep: set<(int, Kind)>, now: int) returns (resolved: int)
      requires Valid()
      modifies this
      ensures Valid() && OpenMap(rows) == Resolved(old(OpenMap(rows)), sleeve, broker, keep)
      ensures resolved == |old(OpenMap(rows))| - |OpenMap(rows)|
    {
      ghost var was := rows;
      var open := OpenIssues(sleeve);
      resolved := 0;
      for i := 0 to |open|
        invariant |rows| == |was|
        invariant forall j :: 0 <= j < |was| ==>
                    rows[j] == if was[j] in open[..i] then After(was[j], sleeve, broker, keep, now) else was[j]
        invariant resolved == OpenCount(was) - OpenCount(rows)
      {
        assert open[..i + 1] == open[..i] + [open[i]];
        assert open[i] in open;
        var at := open[i].id - 1;
        assert was[at] == open[i];
        assert forall a :: 0 <= a < i ==> open[a].id != open[i].id;
        assert was[at] !in open[..i];
        if Resolves(open[i].key, sleeve, broker, keep) {
          CountUpdate(rows, at, now);
          rows := rows[at := rows[at].(resolved := Some(now))];
          resolved := resolved + 1;
        }
        forall j | 0 <= j < |was| && j != at ensures was[j] in open[..i + 1] <==> was[j] in open[..i] {
        }
      }
      assert open[..|open|] == open;
      forall j | 0 <= j < |was| ensures rows[j] == After(was[j], sleeve, broker, keep, now) {
        assert was[j] in was;
      }
      ResolvedIs(was, rows, sleeve, broker, keep, now);
    }
  }

  lemma {:induction false} CountUpdate(rows: seq<Row>, i: nat, now: int)
    requires i < |rows| && rows[i].resolved.None?
    ensures OpenCount(rows[i := rows[i].(resolved := Some(now))]) == OpenCount(rows) - 1
  {
    var after := rows[i := rows[i].(resolved := Some(now))];
    var n := |rows| - 1;
    if i == n {
      assert after[..n] == rows[..n];
    } else {
      CountUpdate(rows[..n], i, now);
      assert after[..n] == rows[..n][i := rows[..n][i].(resolved := Some(now))];
    }
  }

  // ----- the pass -----

  lemma {:induction false} BookTotalStep(book: seq<Position>, i: nat, symbol: string)
    requires i < |book|
    ensures BookTotal(book[..i + 1], symbol) == BookTotal(book[..i], symbol)
            + if book[i].open > 0 && !book[i].simulated && book[i].symbol == symbol then book[i].open else 0
  {
    assert book[..i + 1][..i] == book[..i];
  }

  lemma {:induction false} TotalStep(sleeves: seq<Sleeve>, i: nat, symbol: string)
    requires i < |sleeves|
    ensures Total(sleeves[..i + 1], symbol) == Total(sleeves[..i], symbol)
            + if sleeves[i].book.Some? then BookTotal(sleeves[i].book.value, symbol) else 0
  {
    assert sleeves[..i + 1][..i] == sleeves[..i];
  }

  /** The `recorded` dict: real shares in each name over every readable sleeve. */
  method RecordedTotals(sleeves: seq<Sleeve>) returns (recorded: map<string, int>)
    ensures forall symbol :: Get(recorded, symbol, 0) == Total(sleeves, symbol)
  {
    recorded := map[];
    for i := 0 to |sleeves|
      invariant forall symbol :: Get(recorded, symbol, 0) == Total(sleeves[..i], symbol)
    {
      if sleeves[i].book.Some? {
        var book := sleeves[i].book.value;
        for j := 0 to |book|
          invariant forall symbol ::
                      Get(recorded, symbol, 0) == Total(sleeves[..i], symbol) + BookTotal(book[..j], symbol)
        {
          ghost var before := recorded;
          var p := book[j];
          if p.open > 0 && !p.simulated {
            recorded := recorded[p.symbol := Get(recorded, p.symbol, 0) + p.open];
          }
          forall symbol
            ensures Get(recorded, symbol, 0) == Total(sleeves[..i], symbol) + BookTotal(book[..j + 1], symbol)
          {
            BookTotalStep(book, j, symbol);
            assert Get(before, symbol, 0) == Total(sleeves[..i], symbol) + BookTotal(book[..j], symbol);
          }
        }
        assert book[..|book|] == book;
      }
      forall symbol ensures Get(recorded, symbol, 0) == Total(sleeves[..i + 1], symbol) {
        TotalStep(sleeves, i, symbol);
      }
    }
    assert sleeves[..|sleeves|] == sleeves;
  }

  /** A sleeve's findings. */
  method FindIn(s: Sleeve, book: seq<Position>, broker: Reads, recorded: map<string, int>, ghost all: seq<Sleeve>)
    returns (found: seq<Issue>)
    requires forall symbol :: Get(recorded, symbol, 0) == Total(all, symbol)
    ensures found == Found(s.name, book, broker, all)
  {
    found := [];
    for i := 0 to |book|
      invariant found == Found(s.name, book[..i], broker, all)
    {
      assert book[..i + 1][..i] == book[..i];
      if book[i].open > 0 {
        found := found + Judge(s.name, book[i], broker, Get(recorded, book[i].symbol, 0));
      }
    }
    assert book[..|book|] == book;
  }

  /** The store a pass is given. */
  datatype IssueStore = Memory(memory: MemoryIssueStore) | Live(live: PgIssueStore) {
    function Footprint(): set<object> {
      match this
      case Memory(m) => {m}
      case Live(l) => {l}
    }

    /** The open issues. */
    ghost function Open(): map<Key, Entry>
      reads Footprint()
    {
      match this
      case Memory(m) => OpenMap(m.rows)
      case Live(l) => OpenMap(l.rows)
    }

    ghost predicate Valid()
      reads Footprint()
    {
      match this
      case Memory(m) => m.Valid()
      case Live(l) => l.Valid()
    }

    method Record(issue: Issue, now: int)
      requires Valid()
      modifies Footprint()
      ensures Valid() && Open() == Recorded(old(Open()), issue, now)
    {
      match this {
        case Memory(m) => m.Record(issue, now);
        case Live(l) => l.Record(issue, now);
      }
    }

    method ResolveExcept(sleeve: string, broker: Reads, keep: set<(int, Kind)>, now: int) returns (resolved: int)
      requires Valid()
      modifies Footprint()
      ensures Valid() && Open() == Resolved(old(Open()), sleeve, broker, keep)
      ensures resolved == |old(Open())| - |Open()|
    {
      match this {
        case Memory(m) => resolved := m.ResolveExcept(sleeve, broker, keep, now);
        case Live(l) => resolved := l.ResolveExcept(sleeve, broker, keep, now);
      }
    }
  }

  method RecordEach(store: IssueStore, issues: seq<Issue>, now: int)
    requires store.Valid()
    modifies store.Footprint()
    ensures store.Valid() && store.Open() == RecordAll(old(store.Open()), issues, now)
  {
    for j := 0 to |issues|
      invariant store.Valid() && store.Open() == RecordAll(old(store.Open()), issues[..j], now)
    {
      assert issues[..j + 1][..j] == issues[..j];
      store.Record(issues[j], now);
    }
    assert issues[..|issues|] == issues;
  }

  /** One readable sleeve: its findings recorded, its other observable issues resolved. */
  method JudgeSleeve(store: IssueStore, s: Sleeve, broker: Reads, recorded: map<string, int>, now: int,
                     ghost all: seq<Sleeve>)
    returns (resolved: int)
    requires store.Valid() && s.book.Some?
    requires forall symbol :: Get(recorded, symbol, 0) == Total(all, symbol)
    modifies store.Footprint()
    ensures store.Valid() && store.Open() == PassSleeve(old(store.Open()), s, all, broker, now)
    ensures resolved == ResolvedCount(old(store.Open()), s, all, broker, now)
  {
    var found := FindIn(s, s.book.value, broker, recorded, all);
    RecordEach(store, found, now);
    resolved := store.ResolveExcept(s.name, broker, Keep(found), now);
  }

  /** `_judge_protection`. */
  method JudgeProtection(store: IssueStore, sleeves: seq<Sleeve>, broker: Reads, now: int) returns (resolved: int)
    requires store.Valid()
    modifies store.Footprint()
    ensures store.Valid() && store.Open() == Pass(old(store.Open()), sleeves, sleeves, broker, now)
    ensures resolved == PassResolved(old(store.Open()), sleeves, sleeves, broker, now)
  {
    ghost var was := store.Open();
    var recorded := RecordedTotals(sleeves);
    resolved := 0;
    for i := 0 to |sleeves|
      invariant store.Valid() && store.Open() == Pass(was, sleeves[..i], sleeves, broker, now)
      invariant resolved == PassResolved(was, sleeves[..i], sleeves, broker, now)
    {
      assert sleeves[..i + 1][..i] == sleeves[..i];
      if sleeves[i].book.Some? {
        var n := JudgeSleeve(store, sleeves[i], broker, recorded, now, sleeves);
        resolved := resolved + n;
      }
    }
    assert sleeves[..|sleeves|] == sleeves;
  }
}
