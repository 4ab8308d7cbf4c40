/** Risk pauses: the options desk's (`_write_pause`, kite-momentum-rebalancer/app/options_ledger.py) and the FO
    ledger's (`_write_column`, fno_ledger.py). Days are numbers. */
module Pauses {
  import opened Options

  // ----- the options desk: a pause is only ever lengthened -----

  /** A row of the config audit: the day before and the day after. */
  datatype Audit = Audit(old_: Option<int>, until: int)

  function Join(a: Option<int>, day: int): int {
    if a.Some? && a.value > day then a.value else day
  }

  /** The audit from `start`: each row begins where the last one ended, ends later than it began, and the last
      one ends at `end`. */
  predicate Chain(start: Option<int>, rows: seq<Audit>, end: Option<int>) {
    if rows == [] then start == end
    else
      var last := rows[|rows| - 1];
      && end == Some(last.until) && (last.old_.Some? ==> last.old_.value < last.until)
      && Chain(start, rows[..|rows| - 1], last.old_)
  }

  class OptionsPause {
    var until: Option<int>
    var audit: seq<Audit>

    constructor (stored: Option<int>)
      ensures until == stored && audit == []
    {
      until, audit := stored, [];
    }

    /** `_write_pause`: the later of the two days; nothing is written when that changes nothing. */
    method Write(day: int) returns (changed: bool)
      modifies this
      ensures until == Some(Join(old(until), day)) && (changed <==> until != old(until))
      ensures audit == old(audit) + if changed then [Audit(old(until), until.value)] else []
    {
      var later := Join(until, day);
      if until == Some(later) {
        return false;
      }
      audit := audit + [Audit(until, later)];
      until := Some(later);
      return true;
    }

    /** Any number of writes, in any order, repeated or not. */
    method WriteAll(days: seq<int>)
      modifies this
      ensures until == Latest(old(until), days)
      ensures exists more :: audit == old(audit) + more && Chain(old(until), more, until)
    {
      ghost var more: seq<Audit> := [];
      for i := 0 to |days|
        invariant until == Latest(old(until), days[..i])
        invariant audit == old(audit) + more && Chain(old(until), more, until)
      {
        assert days[..i + 1][..i] == days[..i];
        ghost var before := until;
        var changed := Write(days[i]);
        if changed {
          assert (more + [Audit(before, until.value)])[..|more|] == more;
          more := more + [Audit(before, until.value)];
        }
      }
      assert days[..|days|] == days;
    }
  }

  function Latest(start: Option<int>, days: seq<int>): Option<int> {
    if days == [] then start else Some(Join(Latest(start, days[..|days| - 1]), days[|days| - 1]))
  }

  predicate AtLeast(a: Option<int>, day: int) {
    a.Some? && a.value >= day
  }

  lemma {:induction false} LatestBounds(start: Option<int>, days: seq<int>, d: int)
    requires d in days || start == Some(d)
    ensures AtLeast(Latest(start, days), d)
  {
    if days != [] {
      var front, last := days[..|days| - 1], days[|days| - 1];
      assert days == front + [last];
      if d in front || start == Some(d) {
        LatestBounds(start, front, d);
      }
    }
  }

  lemma {:induction false} LatestIsOne(start: Option<int>, days: seq<int>)
    ensures Latest(start, days) == start || exists d :: d in days && Latest(start, days) == Some(d)
  {
    if days != [] {
      var front, last := days[..|days| - 1], days[|days| - 1];
      LatestIsOne(start, front);
      assert days == front + [last] && last in days;
      if Latest(start, days) != Some(last) && Latest(start, front) != start {
        var d :| d in front && Latest(start, front) == Some(d);
        assert d in days;
      }
    }
  }

  /** The stored day is the maximum of the first and of all that were written. */
  lemma {:induction false} LatestIsMaximum(start: Option<int>, days: seq<int>)
    ensures var m := Latest(start, days);
            && (forall d :: d in days ==> AtLeast(m, d)) && (start.Some? ==> AtLeast(m, start.value))
            && (m == start || exists d :: d in days && m == Some(d))
  {
    forall d | d in days || start == Some(d) ensures AtLeast(Latest(start, days), d) {
      LatestBounds(start, days, d);
    }
    LatestIsOne(start, days);
  }

  /** So neither their order nor their repetition matters. */
  lemma {:induction false} PausesJoin(start: Option<int>, x: seq<int>, y: seq<int>)
    requires forall d :: d in x <==> d in y
    ensures Latest(start, x) == Latest(start, y)
  {
    LatestIsMaximum(start, x);
    LatestIsMaximum(start, y);
    LatestSome(start, x);
    LatestSome(start, y);
    if x == [] && y != [] {
      assert y[0] in y;
    }
    if y == [] && x != [] {
      assert x[0] in x;
    }
  }

  lemma {:induction false} LatestSome(start: Option<int>, days: seq<int>)
    ensures days != [] ==> Latest(start, days).Some?
  {
  }

  /** The audit never goes back: its days rise strictly from row to row. */
  lemma {:induction false} ChainRises(start: Option<int>, rows: seq<Audit>, end: Option<int>, i: nat, j: nat)
    requires Chain(start, rows, end) && i < j < |rows|
    ensures rows[i].until < rows[j].until && (start.Some? ==> start.value < rows[i].until)
    decreases |rows|
  {
    var front, last := rows[..|rows| - 1], rows[|rows| - 1];
    if j < |rows| - 1 {
      ChainRises(start, front, last.old_, i, j);
    } else {
      ChainEnds(start, front, last.old_, i);
    }
  }

  lemma {:induction false} ChainEnds(start: Option<int>, rows: seq<Audit>, end: Option<int>, i: nat)
    requires Chain(start, rows, end) && i < |rows|
    ensures end.Some? && rows[i].until <= end.value && (start.Some? ==> start.value < rows[i].until)
    decreases |rows|
  {
    var front, last := rows[..|rows| - 1], rows[|rows| - 1];
    if i < |rows| - 1 {
      ChainEnds(start, front, last.old_, i);
    } else if front != [] {
      ChainEnds(start, front, last.old_, |front| - 1);
    }
  }

  // ----- the FO ledger: an active pause stands -----

  datatype Pause = Pause(until: Option<int>, reason: string)
  datatype Column = Column(until: Option<int>, reason: string)
  datatype Write = Write(pause: Pause, today: int)

  /** Still in force on `today`. */
  predicate Active(c: Column, today: int) {
    c.until.Some? && c.until.value >= today
  }

  /** `_write_column`. */
  function Written(c: Column, w: Write): Column {
    if w.pause.until.None? then c
    else if Active(c, w.today) && (c.until.value >= w.pause.until.value || c.reason != w.pause.reason) then c
    else Column(w.pause.until, w.pause.reason)
  }

  class FoPauseColumn {
    var column: Column
    var audited: nat

    constructor (c: Column)
      ensures column == c && audited == 0
    {
      column, audited := c, 0;
    }

    method WriteColumn(p: Pause, today: int) returns (written: bool)
      modifies this
      ensures column == Written(old(column), Write(p, today))
      ensures audited == old(audited) + if written then 1 else 0
      ensures column != old(column) ==> written
    {
      if p.until.None? {
        return false;
      }
      if column.until.Some? && column.until.value >= today
         && (column.until.value >= p.until.value || column.reason != p.reason) {
        return false;
      }
      column := Column(p.until, p.reason);
      audited := audited + 1;
      return true;
    }
  }

  function WrittenAll(c: Column, writes: seq<Write>): Column {
    if writes == [] then c else Written(WrittenAll(c, writes[..|writes| - 1]), writes[|writes| - 1])
  }

  /** Over any run of writes on days that never go back, as long as the pause is in force it keeps its reason
      and is never shortened: whatever happens after, up to a day it still covers. */
  lemma {:induction false} ActiveStands(c: Column, writes: seq<Write>, day: int)
    requires Active(c, day) && forall i :: 0 <= i < |writes| ==> writes[i].today <= day
    ensures var after := WrittenAll(c, writes);
            after.until.Some? && after.until.value >= c.until.value && after.reason == c.reason && Active(after, day)
  {
    if writes != [] {
      ActiveStands(c, writes[..|writes| - 1], day);
    }
  }

  /** A pause in force gives way to nothing but a longer one of its own reason; one that has run out gives way
      to any. */
  lemma GivesWay(c: Column, w: Write)
    requires w.pause.until.Some?
    ensures Written(c, w) == Column(w.pause.until, w.pause.reason)
            <==> !Active(c, w.today) || (c.reason == w.pause.reason && c.until.value <= w.pause.until.value)
  {
  }
}
