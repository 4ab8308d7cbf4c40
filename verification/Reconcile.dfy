/** The protection pass and its issue stores (kite-momentum-rebalancer/app/reconcile.py).

    A pass judges every sleeve's open positions against the broker's stop orders and holdings, records what
    it finds and resolves what it no longer finds. Either broker read may fail, and any sleeve's own book
    may be unreadable; those reads are the options below. */
module Reconcile {
  import opened Options

  datatype Kind = Naked | GttMissing | GttOversized | GttUndersized | GttTriggeredUnfilled | ExternalExit | StopRejected

  /** A stop order's status: resting, fired, one of the gone ones, or one the program does not name. */
  datatype GttStatus = Active | Triggered | Gone(name: string) | OtherStatus
  datatype Gtt = Gtt(status: GttStatus, quantity: Option<int>)

  datatype Position = Position(id: int, symbol: string, open: int, gtt: Option<string>, simulated: bool)

  /** A sleeve and its book; `None` when the book could not be read. */
  datatype Sleeve = Sleeve(name: string, book: Option<seq<Position>>)

  /** What an issue says, by the figures in its sentence. */
  datatype Detail =
    | NoStop(open: int)
    | Unlisted(gtt: string, state: Option<string>, open: int)
    | Fired(gtt: string, open: int, still: Option<int>)
    | Sells(gtt: string, quantity: int, open: int)
    | LeftTheBook(have: int, total: int)
    | Reported(text: string)

  datatype Issue = Issue(sleeve: string, position: int, symbol: string, kind: Kind, detail: Detail)

  /** An open issue's identity, and the rest of it. */
  datatype Key = Key(sleeve: string, position: int, kind: Kind)
  datatype Entry = Entry(symbol: string, detail: Detail, seen: int)

  /** The two broker reads. */
  datatype Reads = Reads(gtts: Option<map<string, Gtt>>, held: Option<map<string, int>>)

  function KeyOf(i: Issue): Key {
    Key(i.sleeve, i.position, i.kind)
  }

  function Get<K, V>(m: map<K, V>, k: K, default_: V): V {
    if k in m then m[k] else default_
  }

  predicate IsGttKind(k: Kind) {
    k == GttMissing || k == GttOversized || k == GttUndersized || k == GttTriggeredUnfilled
  }

  // ----- judging -----

  const SIMULATED_GTT_PREFIX := "DRY-"

  function StopFinding(p: Position, broker: Reads): Option<(Kind, Detail)> {
    if p.gtt.None? then Some((Naked, NoStop(p.open)))
    else if broker.gtts.None? || SIMULATED_GTT_PREFIX <= p.gtt.value then None
    else
      var id := p.gtt.value;
      if id !in broker.gtts.value then Some((GttMissing, Unlisted(id, None, p.open)))
      else
        var row := broker.gtts.value[id];
        match row.status
        case Gone(name) => Some((GttMissing, Unlisted(id, Some(name), p.open)))
        case Triggered =>
          var still :=
            if broker.held.Some? && p.symbol in broker.held.value then Some(broker.held.value[p.symbol]) else None;
          Some((GttTriggeredUnfilled, Fired(id, p.open, still)))
        case _ =>
          if row.quantity.Some? && row.quantity.value > p.open then
            Some((GttOversized, Sells(id, row.quantity.value, p.open)))
          else if row.quantity.Some? && row.quantity.value < p.open then
            Some((GttUndersized, Sells(id, row.quantity.value, p.open)))
          else None
  }

  /** Real shares the readable sleeves record in a name, together. */
  function BookTotal(book: seq<Position>, symbol: string): int {
    if book == [] then 0
    else
      var p := book[|book| - 1];
      BookTotal(book[..|book| - 1], symbol) + if p.open > 0 && !p.simulated && p.symbol == symbol then p.open else 0
  }

  function Total(sleeves: seq<Sleeve>, symbol: string): int {
    if sleeves == [] then 0
    else
      var s := sleeves[|sleeves| - 1];
      Total(sleeves[..|sleeves| - 1], symbol) + if s.book.Some? then BookTotal(s.book.value, symbol) else 0
  }

  function ExitFinding(p: Position, broker: Reads, total: int): Option<Detail> {
    if broker.held.Some? && !p.simulated && Get(broker.held.value, p.symbol, 0) < total
    then Some(LeftTheBook(Get(broker.held.value, p.symbol, 0), total))
    else None
  }

  /** `_judge_position`. */
  function Judge(sleeve: string, p: Position, broker: Reads, total: int): seq<Issue> {
    var stop := StopFinding(p, broker);
    var gone := ExitFinding(p, broker, total);
    (if stop.Some? then [Issue(sleeve, p.id, p.symbol, stop.value.0, stop.value.1)] else [])
    + (if gone.Some? then [Issue(sleeve, p.id, p.symbol, ExternalExit, gone.value)] else [])
  }

  function Found(sleeve: string, book: seq<Position>, broker: Reads, all: seq<Sleeve>): seq<Issue> {
    if book == [] then []
    else
      var p := book[|book| - 1];
      Found(sleeve, book[..|book| - 1], broker, all)
      + if p.open > 0 then Judge(sleeve, p, broker, Total(all, p.symbol)) else []
  }

  /** The kinds a pass may resolve on what it could read. */
  predicate Observable(broker: Reads, k: Kind) {
    (broker.gtts.Some? || !IsGttKind(k)) && (broker.held.Some? || k != ExternalExit)
  }

  // ----- the open issues, abstractly -----

  function Recorded(open: map<Key, Entry>, i: Issue, now: int): map<Key, Entry> {
    var k := KeyOf(i);
    open[k := if k in open then open[k].(detail := i.detail, seen := now) else Entry(i.symbol, i.detail, now)]
  }

  function RecordAll(open: map<Key, Entry>, issues: seq<Issue>, now: int): map<Key, Entry> {
    if issues == [] then open else Recorded(RecordAll(open, issues[..|issues| - 1], now), issues[|issues| - 1], now)
  }

  predicate Resolves(k: Key, sleeve: string, broker: Reads, keep: set<(int, Kind)>) {
    k.sleeve == sleeve && Observable(broker, k.kind) && (k.position, k.kind) !in keep
  }

  function Resolved(open: map<Key, Entry>, sleeve: string, broker: Reads, keep: set<(int, Kind)>): map<Key, Entry> {
    map k | k in open && !Resolves(k, sleeve, broker, keep) :: open[k]
  }

  function Keep(found: seq<Issue>): set<(int, Kind)> {
    set i | i in found :: (i.position, i.kind)
  }

  function PassSleeve(open: map<Key, Entry>, s: Sleeve, all: seq<Sleeve>, broker: Reads, now: int): map<Key, Entry> {
    if s.book.None? then open
    else
      var found := Found(s.name, s.book.value, broker, all);
      Resolved(RecordAll(open, found, now), s.name, broker, Keep(found))
  }

  /** `_judge_protection` over the first sleeves of `all`. */
  function Pass(open: map<Key, Entry>, sleeves: seq<Sleeve>, all: seq<Sleeve>, broker: Reads, now: int): map<Key, Entry>
  {
    if sleeves == [] then open
    else PassSleeve(Pass(open, sleeves[..|sleeves| - 1], all, broker, now), sleeves[|sleeves| - 1], all, broker, now)
  }

  // ----- what is found -----

  predicate UniqueIds(book: seq<Position>) {
    forall i, j :: 0 <= i < j < |book| ==> book[i].id != book[j].id
  }

  predicate UniqueNames(sleeves: seq<Sleeve>) {
    forall i, j :: 0 <= i < j < |sleeves| ==> sleeves[i].name != sleeves[j].name
  }

  /** What `_judge_position` finds on some open position of the book. */
  ghost predicate IsFinding(i: Issue, sleeve: string, book: seq<Position>, broker: Reads, all: seq<Sleeve>) {
    exists p :: p in book && p.open > 0 && i in Judge(sleeve, p, broker, Total(all, p.symbol))
  }

  lemma {:induction false} FoundIs(sleeve: string, book: seq<Position>, broker: Reads, all: seq<Sleeve>, i: Issue)
    ensures i in Found(sleeve, book, broker, all) <==> IsFinding(i, sleeve, book, broker, all)
  {
    if book != [] {
      var front, p := book[..|book| - 1], book[|book| - 1];
      FoundIs(sleeve, front, broker, all, i);
      assert book == front + [p];
      if p.open > 0 && i in Judge(sleeve, p, broker, Total(all, p.symbol)) {
        assert p in book;
      }
    }
  }

  lemma JudgeFacts(sleeve: string, p: Position, broker: Reads, total: int, i: Issue)
    requires i in Judge(sleeve, p, broker, total)
    ensures i.sleeve == sleeve && i.position == p.id && Observable(broker, i.kind) && i.kind != StopRejected
  {
  }

  lemma JudgeUnique(sleeve: string, p: Position, broker: Reads, total: int, a: Issue, b: Issue)
    requires a in Judge(sleeve, p, broker, total) && b in Judge(sleeve, p, broker, total) && a.kind == b.kind
    ensures a == b
  {
    var stop, gone := StopFinding(p, broker), ExitFinding(p, broker, total);
    assert stop.Some? ==> stop.value.0 != ExternalExit;
    var x := if stop.Some? then [Issue(sleeve, p.id, p.symbol, stop.value.0, stop.value.1)] else [];
    var y := if gone.Some? then [Issue(sleeve, p.id, p.symbol, ExternalExit, gone.value)] else [];
    assert a in x || a in y;
    assert b in x || b in y;
  }

  /** Two findings of one sleeve never share a key. */
  lemma {:induction false} FoundUnique(sleeve: string, book: seq<Position>, broker: Reads, all: seq<Sleeve>, a: Issue,
                                       b: Issue)
    requires UniqueIds(book) && a in Found(sleeve, book, broker, all) && b in Found(sleeve, book, broker, all)
    requires KeyOf(a) == KeyOf(b)
    ensures a == b
  {
    FoundIs(sleeve, book, broker, all, a);
    FoundIs(sleeve, book, broker, all, b);
    var p :| p in book && p.open > 0 && a in Judge(sleeve, p, broker, Total(all, p.symbol));
    var q :| q in book && q.open > 0 && b in Judge(sleeve, q, broker, Total(all, q.symbol));
    JudgeFacts(sleeve, p, broker, Total(all, p.symbol), a);
    JudgeFacts(sleeve, q, broker, Total(all, q.symbol), b);
    var i :| 0 <= i < |book| && book[i] == p;
    var j :| 0 <= j < |book| && book[j] == q;
    assert i == j;
    JudgeUnique(sleeve, p, broker, Total(all, p.symbol), a, b);
  }

  // ----- what a pass leaves -----

  lemma {:induction false} RecordAllAt(open: map<Key, Entry>, issues: seq<Issue>, now: int, k: Key)
    ensures var after := RecordAll(open, issues, now);
            && (k in after <==> k in open || exists i :: i in issues && KeyOf(i) == k)
            && ((exists i :: i in issues && KeyOf(i) == k) ==>
                  exists i :: i in issues && KeyOf(i) == k && after[k].detail == i.detail && after[k].seen == now)
            && (!(exists i :: i in issues && KeyOf(i) == k) && k in open ==> after[k] == open[k])
  {
    if issues != [] {
      var front, last := issues[..|issues| - 1], issues[|issues| - 1];
      RecordAllAt(open, front, now, k);
      assert issues == front + [last];
      if KeyOf(last) == k {
        assert last in issues;
      }
    }
  }

  /** What one pass leaves of key `k`, given what it found in that sleeve. */
  ghost predicate Leaves(before: map<Key, Entry>, after: map<Key, Entry>, k: Key, sleeve: string, book: seq<Position>,
                         broker: Reads, all: seq<Sleeve>, now: int) {
    && (k in after <==> (exists i :: IsFinding(i, sleeve, book, broker, all) && KeyOf(i) == k)
                        || (k in before && !Observable(broker, k.kind)))
    && (forall i :: IsFinding(i, sleeve, book, broker, all) && KeyOf(i) == k ==>
          k in after && after[k].detail == i.detail && after[k].seen == now)
    && (k in before && !Observable(broker, k.kind) ==> k in after && after[k] == before[k])
  }

  lemma SleeveLeaves(open: map<Key, Entry>, s: Sleeve, all: seq<Sleeve>, broker: Reads, now: int, k: Key)
    requires s.book.Some? && UniqueIds(s.book.value) && k.sleeve == s.name
    ensures Leaves(open, PassSleeve(open, s, all, broker, now), k, s.name, s.book.value, broker, all, now)
  {
    var book, found := s.book.value, Found(s.name, s.book.value, broker, all);
    RecordAllAt(open, found, now, k);
    forall i ensures i in found <==> IsFinding(i, s.name, book, broker, all) {
      FoundIs(s.name, book, broker, all, i);
    }
    forall i | i in found && KeyOf(i) == k ensures Observable(broker, k.kind) && (k.position, k.kind) in Keep(found) {
      var p :| p in book && p.open > 0 && i in Judge(s.name, p, broker, Total(all, p.symbol));
      JudgeFacts(s.name, p, broker, Total(all, p.symbol), i);
    }
    forall i, j | i in found && j in found && KeyOf(i) == k && KeyOf(j) == k ensures i == j {
      FoundUnique(s.name, book, broker, all, i, j);
    }
    if (k.position, k.kind) in Keep(found) {
      var i :| i in found && (i.position, i.kind) == (k.position, k.kind);
      var p :| p in book && p.open > 0 && i in Judge(s.name, p, broker, Total(all, p.symbol));
      JudgeFacts(s.name, p, broker, Total(all, p.symbol), i);
      assert KeyOf(i) == k;
    }
  }

  /** A sleeve's own judging leaves every other sleeve's issues alone. */
  lemma OthersStay(open: map<Key, Entry>, s: Sleeve, all: seq<Sleeve>, broker: Reads, now: int, k: Key)
    requires k.sleeve != s.name
    ensures var after := PassSleeve(open, s, all, broker, now);
            (k in after <==> k in open) && (k in open ==> after[k] == open[k])
  {
    if s.book.Some? {
      var found := Found(s.name, s.book.value, broker, all);
      RecordAllAt(open, found, now, k);
      forall i | i in found ensures KeyOf(i) != k {
        FoundIs(s.name, s.book.value, broker, all, i);
        var p :| p in s.book.value && p.open > 0 && i in Judge(s.name, p, broker, Total(all, p.symbol));
        JudgeFacts(s.name, p, broker, Total(all, p.symbol), i);
      }
    }
  }

  lemma {:induction false} UnreadStay(open: map<Key, Entry>, sleeves: seq<Sleeve>, all: seq<Sleeve>, broker: Reads,
                                      now: int, k: Key)
    requires forall s :: s in sleeves && s.name == k.sleeve ==> s.book.None?
    ensures var after := Pass(open, sleeves, all, broker, now);
            (k in after <==> k in open) && (k in open ==> after[k] == open[k])
  {
    if sleeves != [] {
      var front, last := sleeves[..|sleeves| - 1], sleeves[|sleeves| - 1];
      assert sleeves == front + [last];
      UnreadStay(open, front, all, broker, now, k);
      if last.name != k.sleeve {
        OthersStay(Pass(open, front, all, broker, now), last, all, broker, now, k);
      }
    }
  }

  /** Whatever was open before, and whatever could be read: after the pass, a readable sleeve's open issues
      are what `_judge_position` finds on its open positions, with that pass's detail and time, together
      with the old ones of the kinds it could not observe, untouched. */
  lemma {:induction false} PassLeaves(open: map<Key, Entry>, sleeves: seq<Sleeve>, all: seq<Sleeve>, broker: Reads,
                                      now: int, j: nat, k: Key)
    requires UniqueNames(sleeves) && j < |sleeves| && sleeves[j].book.Some? && UniqueIds(sleeves[j].book.value)
    requires k.sleeve == sleeves[j].name
    ensures Leaves(open, Pass(open, sleeves, all, broker, now), k, sleeves[j].name, sleeves[j].book.value, broker, all,
        now)
  {
    var front, last := sleeves[..|sleeves| - 1], sleeves[|sleeves| - 1];
    var before := Pass(open, front, all, broker, now);
    if j == |sleeves| - 1 {
      UnreadStay(open, front, all, broker, now, k);
      SleeveLeaves(before, last, all, broker, now, k);
    } else {
      assert front[j] == sleeves[j];
      PassLeaves(open, front, all, broker, now, j, k);
      OthersStay(before, last, all, broker, now, k);
    }
  }

  predicate FullyRead(broker: Reads) {
    broker.gtts.Some? && broker.held.Some?
  }

  /** After a pass whose reads all succeed, whatever the history, a sleeve's open issues are exactly its
      findings. */
  lemma {:induction false} PassIsExact(open: map<Key, Entry>, all: seq<Sleeve>, broker: Reads, now: int, j: nat, k: Key)
    requires UniqueNames(all) && j < |all| && all[j].book.Some? && UniqueIds(all[j].book.value)
    requires k.sleeve == all[j].name && FullyRead(broker)
    ensures k in Pass(open, all, all, broker, now)
            <==> exists i :: IsFinding(i, all[j].name, all[j].book.value, broker, all) && KeyOf(i) == k
  {
    PassLeaves(open, all, all, broker, now, j, k);
  }

  /** A failed read of the stop orders leaves every issue of their kinds as it was, and a failed read of the
      holdings every external exit; so does a sleeve whose own book cannot be read, for all its kinds. */
  lemma FailedReadsStay(open: map<Key, Entry>, all: seq<Sleeve>, broker: Reads, now: int, k: Key)
    requires UniqueNames(all) && forall s :: s in all && s.book.Some? ==> UniqueIds(s.book.value)
    requires || (broker.gtts.None? && k.kind in {GttMissing, GttOversized, GttUndersized, GttTriggeredUnfilled})
             || (broker.held.None? && k.kind == ExternalExit)
             || forall s :: s in all && s.name == k.sleeve ==> s.book.None?
    ensures var after := Pass(open, all, all, broker, now);
            (k in after <==> k in open) && (k in open ==> after[k] == open[k])
  {
    if s :| s in all && s.name == k.sleeve && s.book.Some? {
      var j :| 0 <= j < |all| && all[j] == s;
      PassLeaves(open, all, all, broker, now, j, k);
      forall i | IsFinding(i, s.name, s.book.value, broker, all) ensures KeyOf(i) != k {
        var p :| p in s.book.value && p.open > 0 && i in Judge(s.name, p, broker, Total(all, p.symbol));
        JudgeFacts(s.name, p, broker, Total(all, p.symbol), i);
      }
    } else {
      UnreadStay(open, all, all, broker, now, k);
    }
  }

  // ----- stops -----

  /** What is wrong with a position's stop, by the broker's list: none was placed; it is gone or was never listed;
      it fired; it sells more than is open, or less. A simulated stop is not looked for. */
  ghost predicate StopIssue(p: Position, broker: Reads, kind: Kind, detail: Detail)
    requires broker.gtts.Some?
  {
    var rows := broker.gtts.value;
    if p.gtt.None? then kind == Naked && detail == NoStop(p.open)
    else
      var id := p.gtt.value;
      && !("DRY-" <= id)
      && match kind
         case GttMissing => detail.Unlisted? && detail.gtt == id && detail.open == p.open
           && (if detail.state.None? then id !in rows
               else id in rows && rows[id].status.Gone? && rows[id].status.name == detail.state.value)
         case GttTriggeredUnfilled => detail.Fired? && detail.gtt == id && detail.open == p.open
           && id in rows && rows[id].status.Triggered?
           && (detail.still.Some? <==> broker.held.Some? && p.symbol in broker.held.value)
           && (detail.still.Some? ==> detail.still.value == broker.held.value[p.symbol])
         case GttOversized => detail.Sells? && Sold(p, rows, id, detail) && detail.quantity > detail.open
         case GttUndersized => detail.Sells? && Sold(p, rows, id, detail) && detail.quantity < detail.open
         case _ => false
  }

  /** A live stop's quantity against the units open. */
  predicate Sold(p: Position, rows: map<string, Gtt>, id: string, detail: Detail)
    requires detail.Sells?
  {
    && id in rows && !rows[id].status.Gone? && !rows[id].status.Triggered?
    && detail.gtt == id && rows[id].quantity == Some(detail.quantity) && detail.open == p.open
  }

  /** After any pass that could read the list, an open position has an issue of one of these kinds exactly when that
      is wrong with its stop, and the issue says so in these figures. */
  lemma {:induction false} StopIssueWhen(open: map<Key, Entry>, all: seq<Sleeve>, broker: Reads, now: int, j: nat,
                                         p: Position, kind: Kind)
    requires UniqueNames(all) && j < |all| && all[j].book.Some? && UniqueIds(all[j].book.value)
    requires broker.gtts.Some? && p in all[j].book.value && p.open > 0 && kind != ExternalExit
    ensures var after, k := Pass(open, all, all, broker, now), Key(all[j].name, p.id, kind);
            && (k in after <==> exists detail :: StopIssue(p, broker, kind, detail))
            && (k in after ==> StopIssue(p, broker, kind, after[k].detail) && after[k].seen == now)
  {
    var name, book, k := all[j].name, all[j].book.value, Key(all[j].name, p.id, kind);
    PassLeaves(open, all, all, broker, now, j, k);
    forall detail | StopIssue(p, broker, kind, detail)
      ensures IsFinding(Issue(name, p.id, p.symbol, kind, detail), name, book, broker, all)
    {
      StopJudged(name, p, broker, Total(all, p.symbol), kind, detail);
    }
    forall i | IsFinding(i, name, book, broker, all) && KeyOf(i) == k ensures StopIssue(p, broker, kind, i.detail) {
      var q :| q in book && q.open > 0 && i in Judge(name, q, broker, Total(all, q.symbol));
      JudgeFacts(name, q, broker, Total(all, q.symbol), i);
      SameId(book, p, q);
      StopIsReal(name, p, broker, Total(all, p.symbol), i);
    }
  }

  lemma StopFound(p: Position, broker: Reads, kind: Kind, detail: Detail)
    requires broker.gtts.Some?
    ensures StopIssue(p, broker, kind, detail) <==> StopFinding(p, broker) == Some((kind, detail))
  {
  }

  lemma StopJudged(sleeve: string, p: Position, broker: Reads, total: int, kind: Kind, detail: Detail)
    requires broker.gtts.Some? && StopIssue(p, broker, kind, detail)
    ensures Issue(sleeve, p.id, p.symbol, kind, detail) in Judge(sleeve, p, broker, total)
  {
    StopFound(p, broker, kind, detail);
    var gone := ExitFinding(p, broker, total);
    var x := [Issue(sleeve, p.id, p.symbol, kind, detail)];
    var y := if gone.Some? then [Issue(sleeve, p.id, p.symbol, ExternalExit, gone.value)] else [];
    assert (x + y)[0] == x[0];
  }

  lemma StopIsReal(sleeve: string, p: Position, broker: Reads, total: int, i: Issue)
    requires broker.gtts.Some? && i in Judge(sleeve, p, broker, total) && i.kind != ExternalExit
    ensures StopIssue(p, broker, i.kind, i.detail)
  {
    StopFound(p, broker, i.kind, i.detail);
  }

  // ----- shares that left the book -----

  /** After any pass that could read the holdings, an open position has an external-exit issue exactly when it is
      real and the shares its name is recorded for, over all sleeves together, are more than the broker shows; the
      issue gives those two figures. */
  lemma {:induction false} ExternalExitWhen(open: map<Key, Entry>, all: seq<Sleeve>, broker: Reads, now: int, j: nat,
                                            p: Position)
    requires UniqueNames(all) && j < |all| && all[j].book.Some? && UniqueIds(all[j].book.value)
    requires broker.held.Some? && p in all[j].book.value && p.open > 0
    ensures var after, k := Pass(open, all, all, broker, now), Key(all[j].name, p.id, ExternalExit);
            var have, total := Get(broker.held.value, p.symbol, 0), Total(all, p.symbol);
            && (k in after <==> !p.simulated && total > have)
            && (k in after ==> after[k].detail == LeftTheBook(have, total) && after[k].seen == now)
  {
    var name, book, k := all[j].name, all[j].book.value, Key(all[j].name, p.id, ExternalExit);
    PassLeaves(open, all, all, broker, now, j, k);
    var have, total := Get(broker.held.value, p.symbol, 0), Total(all, p.symbol);
    if !p.simulated && total > have {
      ExitJudged(name, p, broker, total);
      assert IsFinding(Issue(name, p.id, p.symbol, ExternalExit, LeftTheBook(have, total)), name, book, broker, all);
    }
    forall i | IsFinding(i, name, book, broker, all) && KeyOf(i) == k
      ensures !p.simulated && total > have
    {
      var q :| q in book && q.open > 0 && i in Judge(name, q, broker, Total(all, q.symbol));
      JudgeFacts(name, q, broker, Total(all, q.symbol), i);
      SameId(book, p, q);
      ExitIsReal(name, p, broker, total, i);
    }
  }

  lemma SameId(book: seq<Position>, p: Position, q: Position)
    requires UniqueIds(book) && p in book && q in book && p.id == q.id
    ensures p == q
  {
    var i :| 0 <= i < |book| && book[i] == p;
    var j :| 0 <= j < |book| && book[j] == q;
  }

  lemma ExitJudged(sleeve: string, p: Position, broker: Reads, total: int)
    requires broker.held.Some? && !p.simulated && total > Get(broker.held.value, p.symbol, 0)
    ensures Issue(sleeve, p.id, p.symbol, ExternalExit, LeftTheBook(Get(broker.held.value, p.symbol, 0), total))
         in Judge(sleeve, p, broker, total)
  {
    var stop, gone := StopFinding(p, broker), ExitFinding(p, broker, total);
    var x := if stop.Some? then [Issue(sleeve, p.id, p.symbol, stop.value.0, stop.value.1)] else [];
    var y := [Issue(sleeve, p.id, p.symbol, ExternalExit, gone.value)];
    assert y[0] in x + y;
  }

  lemma ExitIsReal(sleeve: string, p: Position, broker: Reads, total: int, i: Issue)
    requires i in Judge(sleeve, p, broker, total) && i.kind == ExternalExit
    ensures broker.held.Some? && !p.simulated && total > Get(broker.held.value, p.symbol, 0)
  {
    var stop := StopFinding(p, broker);
    assert stop.Some? ==> stop.value.0 != ExternalExit;
  }

  /** A key of that kind that no open position has is gone after such a pass. */
  lemma {:induction false} NoOtherExits(open: map<Key, Entry>, all: seq<Sleeve>, broker: Reads, now: int, j: nat,
                                        k: Key)
    requires UniqueNames(all) && j < |all| && all[j].book.Some? && UniqueIds(all[j].book.value)
    requires broker.held.Some? && k.sleeve == all[j].name && k.kind == ExternalExit
    requires forall p :: p in all[j].book.value && p.open > 0 ==> p.id != k.position
    ensures k !in Pass(open, all, all, broker, now)
  {
    PassLeaves(open, all, all, broker, now, j, k);
    forall i | IsFinding(i, all[j].name, all[j].book.value, broker, all) ensures KeyOf(i) != k {
      var p :| p in all[j].book.value && p.open > 0 && i in Judge(all[j].name, p, broker, Total(all, p.symbol));
      JudgeFacts(all[j].name, p, broker, Total(all, p.symbol), i);
    }
  }

  /** So a name the broker shows in full has none, in any sleeve, and one share fewer gives one to each real
      position in it. */
  lemma {:induction false} OneShareFewer(open: map<Key, Entry>, all: seq<Sleeve>, broker: Reads, now: int, j: nat,
                                         p: Position)
    requires UniqueNames(all) && j < |all| && all[j].book.Some? && UniqueIds(all[j].book.value)
    requires broker.held.Some? && p in all[j].book.value && p.open > 0
    ensures var after, k := Pass(open, all, all, broker, now), Key(all[j].name, p.id, ExternalExit);
            && (Get(broker.held.value, p.symbol, 0) == Total(all, p.symbol) ==> k !in after)
            && (Get(broker.held.value, p.symbol, 0) == Total(all, p.symbol) - 1 ==> (k in after <==> !p.simulated))
            && (p.symbol !in broker.held.value ==> (k in after <==> !p.simulated))
  {
    ExternalExitWhen(open, all, broker, now, j, p);
    if !p.simulated {
      TotalAtLeast(all, j, p);
    }
  }

  lemma {:induction false} BookTotalAtLeast(book: seq<Position>, p: Position)
    requires p in book && p.open > 0 && !p.simulated
    ensures BookTotal(book, p.symbol) >= p.open
  {
    var front, last := book[..|book| - 1], book[|book| - 1];
    assert book == front + [last];
    if p in front {
      BookTotalAtLeast(front, p);
    } else {
      BookTotalNatural(front, p.symbol);
    }
  }

  lemma {:induction false} BookTotalNatural(book: seq<Position>, symbol: string)
    ensures BookTotal(book, symbol) >= 0
  {
    if book != [] {
      BookTotalNatural(book[..|book| - 1], symbol);
    }
  }

  lemma {:induction false} TotalNatural(sleeves: seq<Sleeve>, symbol: string)
    ensures Total(sleeves, symbol) >= 0
  {
    if sleeves != [] {
      TotalNatural(sleeves[..|sleeves| - 1], symbol);
      if sleeves[|sleeves| - 1].book.Some? {
        BookTotalNatural(sleeves[|sleeves| - 1].book.value, symbol);
      }
    }
  }

  lemma {:induction false} TotalAtLeast(sleeves: seq<Sleeve>, j: nat, p: Position)
    requires j < |sleeves| && sleeves[j].book.Some? && p in sleeves[j].book.value && p.open > 0 && !p.simulated
    ensures Total(sleeves, p.symbol) >= p.open
  {
    var front, last := sleeves[..|sleeves| - 1], sleeves[|sleeves| - 1];
    if j < |front| {
      TotalAtLeast(front, j, p);
      if last.book.Some? {
        BookTotalNatural(last.book.value, p.symbol);
      }
    } else {
      BookTotalAtLeast(last.book.value, p);
      TotalNatural(front, p.symbol);
    }
  }

  /** One more position in any sleeve's book: a real open one counts its shares for its own name, any other counts
      for none. */
  lemma {:induction false} TotalCounts(sleeves: seq<Sleeve>, j: nat, p: Position, symbol: string)
    requires j < |sleeves| && sleeves[j].book.Some?
    ensures Total(sleeves[j := Sleeve(sleeves[j].name, Some(sleeves[j].book.value + [p]))], symbol)
         == Total(sleeves, symbol) + if p.symbol == symbol && p.open > 0 && !p.simulated then p.open else 0
  {
    var more := sleeves[j := Sleeve(sleeves[j].name, Some(sleeves[j].book.value + [p]))];
    var n := |sleeves| - 1;
    if j < n {
      TotalCounts(sleeves[..n], j, p, symbol);
      assert more[..n] == sleeves[..n][j := more[j]];
    } else {
      assert more[..n] == sleeves[..n];
      assert (sleeves[j].book.value + [p])[..|sleeves[j].book.value|] == sleeves[j].book.value;
    }
  }

  // ----- a second pass -----

  /** How many issues a sleeve's judging resolves. */
  function ResolvedCount(open: map<Key, Entry>, s: Sleeve, all: seq<Sleeve>, broker: Reads, now: int): int {
    if s.book.None? then 0
    else |RecordAll(open, Found(s.name, s.book.value, broker, all), now)| - |PassSleeve(open, s, all, broker, now)|
  }

  function PassResolved(open: map<Key, Entry>, sleeves: seq<Sleeve>, all: seq<Sleeve>, broker: Reads, now: int): int {
    if sleeves == [] then 0
    else
      var front := sleeves[..|sleeves| - 1];
      PassResolved(open, front, all, broker, now)
      + ResolvedCount(Pass(open, front, all, broker, now), sleeves[|sleeves| - 1], all, broker, now)
  }

  /** Every issue of a readable sleeve is a finding or of a kind not observed. */
  ghost predicate Settled(open: map<Key, Entry>, sleeves: seq<Sleeve>, all: seq<Sleeve>, broker: Reads) {
    forall j, k :: 0 <= j < |sleeves| && sleeves[j].book.Some? && k in open && k.sleeve == sleeves[j].name ==>
                     SettledAt(sleeves[j], all, broker, k)
  }

  ghost predicate SettledAt(s: Sleeve, all: seq<Sleeve>, broker: Reads, k: Key)
    requires s.book.Some?
  {
    !Observable(broker, k.kind) || exists i :: IsFinding(i, s.name, s.book.value, broker, all) && KeyOf(i) == k
  }

  lemma {:induction false} NothingToResolve(open: map<Key, Entry>, s: Sleeve, all: seq<Sleeve>, broker: Reads, now: int)
    requires s.book.Some? && forall k :: k in open && k.sleeve == s.name ==> SettledAt(s, all, broker, k)
    ensures PassSleeve(open, s, all, broker, now) == RecordAll(open, Found(s.name, s.book.value, broker, all), now)
  {
    var found := Found(s.name, s.book.value, broker, all);
    var recorded := RecordAll(open, found, now);
    forall k | k in recorded ensures !Resolves(k, s.name, broker, Keep(found)) {
      RecordAllAt(open, found, now, k);
      if k.sleeve == s.name && Observable(broker, k.kind) {
        if !(exists i :: i in found && KeyOf(i) == k) {
          assert SettledAt(s, all, broker, k);
          var i :| IsFinding(i, s.name, s.book.value, broker, all) && KeyOf(i) == k;
          FoundIs(s.name, s.book.value, broker, all, i);
        }
        var i :| i in found && KeyOf(i) == k;
        assert (i.position, i.kind) in Keep(found);
      }
    }
  }

  lemma {:induction false} SettledPass(open: map<Key, Entry>, sleeves: seq<Sleeve>, all: seq<Sleeve>, broker: Reads,
                                       now: int)
    requires UniqueNames(sleeves) && Settled(open, sleeves, all, broker)
    requires forall s :: s in sleeves && s.book.Some? ==> UniqueIds(s.book.value)
    ensures PassResolved(open, sleeves, all, broker, now) == 0
  {
    if sleeves != [] {
      var front, s := sleeves[..|sleeves| - 1], sleeves[|sleeves| - 1];
      assert sleeves == front + [s];
      assert Settled(open, front, all, broker) by {
        forall j, k | 0 <= j < |front| && front[j].book.Some? && k in open && k.sleeve == front[j].name
          ensures SettledAt(front[j], all, broker, k)
        {
          assert sleeves[j] == front[j];
        }
      }
      SettledPass(open, front, all, broker, now);
      if s.book.Some? {
        var before := Pass(open, front, all, broker, now);
        forall k | k in before && k.sleeve == s.name ensures SettledAt(s, all, broker, k) {
          UnreadStay(open, front, all, broker, now, k);
          assert sleeves[|sleeves| - 1] == s;
        }
        NothingToResolve(before, s, all, broker, now);
      }
    }
  }

  /** A second pass on the same reads, at any later time, resolves nothing. */
  lemma SecondPassResolvesNothing(open: map<Key, Entry>, all: seq<Sleeve>, broker: Reads, now: int, later: int)
    requires UniqueNames(all) && forall s :: s in all && s.book.Some? ==> UniqueIds(s.book.value)
    ensures PassResolved(Pass(open, all, all, broker, now), all, all, broker, later) == 0
  {
    var after := Pass(open, all, all, broker, now);
    forall j, k | 0 <= j < |all| && all[j].book.Some? && k in after && k.sleeve == all[j].name
      ensures SettledAt(all[j], all, broker, k)
    {
      PassLeaves(open, all, all, broker, now, j, k);
    }
    SettledPass(after, all, all, broker, later);
  }
}
