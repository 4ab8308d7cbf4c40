/** The parallel mutation run (`run` and its inner `task`, decile-blueprint/tools/mutation.py).

    Worker threads take the mutants in order; each leases a private copy of the package from a queue,
    overwrites one file, runs the tests, restores the file and puts the copy back. A run is any sequence
    of the steps below, in any order the threads allow.

    Beside its copy a workspace keeps Hypothesis's store of examples, which the tests read and write and
    which nobody restores. */
module LeaseQueue {
  import opened Options

  /** A copy of the package: file contents by path. */
  type Package = map<string, string>

  /** The examples a workspace has kept. */
  type Store = set<string>

  /** `looks` is how many times the mutant's tests read the copy before they answer. */
  datatype Mutant = Mutant(file: string, source: string, looks: nat)

  /** What a file's tests make of what they read, the copy at each look and the store they find: the test
      file that failed, if any, and the store they leave. */
  datatype Tests = Tests(judge: (string, seq<Package>, Store) -> Option<string>,
                         leave: (string, seq<Package>, Store) -> Store)

  /** `controls` are the unparsed, unmutated modules that workspace 0 runs first. */
  datatype Config = Config(pristine: Package, mutants: seq<Mutant>, workers: nat, controls: seq<Mutant>, tests: Tests) {
    ghost predicate Valid() {
      && workers > 0
      && (forall i :: 0 <= i < |mutants| ==> mutants[i].file in pristine)
      && (forall i :: 0 <= i < |controls| ==> controls[i].file in pristine)
    }
  }

  /** What the tests saw of the copy, in order, and what failed; or the selection's time ran out; or an
      exception. */
  datatype Outcome = Verdict(seen: seq<Package>, killedBy: Option<string>) | TimedOut | Raised

  datatype Task =
    | Queued
    | Waiting
    | Leased(ws: nat)
    | Running(ws: nat, seen: seq<Package>)
    | Scored(ws: nat, outcome: Outcome)
    | Restored(ws: nat, outcome: Outcome)
    | Done(outcome: Outcome)
  {
    predicate Holds() { Leased? || Running? || Scored? || Restored? }
    predicate Active() { Waiting? || Holds() }
  }

  datatype State = State(queue: seq<nat>, copies: seq<Package>, stores: seq<Store>, tasks: seq<Task>)

  /** One step of one thread. `Expire` is the time limit on a test file, which depends on the machine's load;
      `Throw` is an exception while the file is written or the tests run, and may leave any text in the
      mutated file. Either may leave any store. */
  datatype Event =
    | Pick(i: nat) | Get(i: nat) | Write(i: nat) | Look(i: nat) | Score(i: nat) | Expire(i: nat, store: Store)
    | Throw(i: nat, text: string, store: Store) | Restore(i: nat) | Put(i: nat)

  /** The module with its own unparsed text, as a control run sees it. */
  function Unparsed(c: Config, j: nat): Package
    requires j < |c.controls|
  {
    c.pristine[c.controls[j].file := c.controls[j].source]
  }

  /** What the first `n` control runs leave. */
  function ControlStore(c: Config, n: nat): Store
    requires n <= |c.controls|
  {
    if n == 0 then {}
    else
      var m := c.controls[n - 1];
      c.tests.leave(m.file, seq(m.looks, _ => Unparsed(c, n - 1)), ControlStore(c, n - 1))
  }

  /** The store of a workspace when the pool starts. */
  function Start(c: Config, w: nat): Store {
    if w == 0 then ControlStore(c, |c.controls|) else {}
  }

  function Init(c: Config): State {
    State(seq(c.workers, w => w), seq(c.workers, w => c.pristine), seq(c.workers, w requires 0 <= w => Start(c, w)),
          seq(|c.mutants|, i => Queued))
  }

  function ActiveTasks(s: State): set<nat> {
    set i: nat | i < |s.tasks| && s.tasks[i].Active()
  }

  function Holders(s: State): set<nat> {
    set i: nat | i < |s.tasks| && s.tasks[i].Holds()
  }

  /** A thread can take the step now. `Get` is the only blocking call: it waits for the queue. */
  ghost predicate Enabled(c: Config, s: State, e: Event) {
    && e.i < |s.tasks| == |c.mutants| && |s.stores| == |s.copies|
    && var t := s.tasks[e.i];
       match e
       case Pick(_) => t.Queued? && |ActiveTasks(s)| < c.workers && forall j :: 0 <= j < e.i ==> !s.tasks[j].Queued?
       case Get(_) => t.Waiting? && s.queue != []
       case Write(_) => t.Leased? && t.ws < |s.copies|
       case Look(_) => t.Running? && t.ws < |s.copies| && |t.seen| < c.mutants[e.i].looks
       case Score(_) => t.Running? && t.ws < |s.copies| && |t.seen| >= c.mutants[e.i].looks
       case Expire(_, _) => t.Running? && t.ws < |s.copies|
       case Throw(_, _, _) => (t.Leased? || t.Running?) && t.ws < |s.copies|
       case Restore(_) => t.Scored? && t.ws < |s.copies| && c.mutants[e.i].file in c.pristine
       case Put(_) => t.Restored?
  }

  function Overwrite(s: State, w: nat, file: string, text: string): seq<Package>
    requires w < |s.copies|
  {
    s.copies[w := s.copies[w][file := text]]
  }

  function Apply(c: Config, s: State, e: Event): State
    requires Enabled(c, s, e)
  {
    var t, m := s.tasks[e.i], c.mutants[e.i];
    match e
    case Pick(i) => s.(tasks := s.tasks[i := Waiting])
    case Get(i) => s.(queue := s.queue[1..], tasks := s.tasks[i := Leased(s.queue[0])])
    case Write(i) =>
      s.(copies := Overwrite(s, t.ws, m.file, m.source), tasks := s.tasks[i := Running(t.ws, [])])
    case Look(i) => s.(tasks := s.tasks[i := Running(t.ws, t.seen + [s.copies[t.ws]])])
    case Score(i) =>
      s.(stores := s.stores[t.ws := c.tests.leave(m.file, t.seen, s.stores[t.ws])],
         tasks := s.tasks[i := Scored(t.ws, Verdict(t.seen, c.tests.judge(m.file, t.seen, s.stores[t.ws])))])
    case Expire(i, store) => s.(stores := s.stores[t.ws := store], tasks := s.tasks[i := Scored(t.ws, TimedOut)])
    case Throw(i, text, store) =>
      s.(copies := Overwrite(s, t.ws, m.file, text), stores := s.stores[t.ws := store],
         tasks := s.tasks[i := Scored(t.ws, Raised)])
    case Restore(i) =>
      s.(copies := Overwrite(s, t.ws, m.file, c.pristine[m.file]),
         tasks := s.tasks[i := Restored(t.ws, t.outcome)])
    case Put(i) => s.(queue := s.queue + [t.ws], tasks := s.tasks[i := Done(t.outcome)])
  }

  ghost predicate IsRun(c: Config, s: State, es: seq<Event>, s': State)
    decreases |es|
  {
    if es == [] then s == s'
    else Enabled(c, s, es[0]) && IsRun(c, Apply(c, s, es[0]), es[1..], s')
  }

  // ----- the invariant -----

  /** The package with mutant `i` applied and nothing else. */
  function Alone(c: Config, i: nat): Package
    requires i < |c.mutants|
  {
    c.pristine[c.mutants[i].file := c.mutants[i].source]
  }

  ghost predicate DiffersOnlyIn(p: Package, q: Package, file: string) {
    p.Keys == q.Keys && forall f :: f in p && f != file ==> p[f] == q[f]
  }

  /** What a task may have seen or said. */
  ghost predicate Honest(c: Config, i: nat, o: Outcome)
    requires i < |c.mutants|
  {
    o.Verdict? ==> o.seen == seq(c.mutants[i].looks, _ => Alone(c, i))
  }

  /** The held copy, by how far its holder has got. */
  ghost predicate HeldWell(c: Config, i: nat, t: Task, p: Package)
    requires i < |c.mutants|
  {
    match t
    case Leased(_) => p == c.pristine
    case Running(_, seen) =>
      p == Alone(c, i) && |seen| <= c.mutants[i].looks && seen == seq(|seen|, _ => Alone(c, i))
    case Scored(_, o) => DiffersOnlyIn(p, c.pristine, c.mutants[i].file) && Honest(c, i, o)
    case Restored(_, o) => p == c.pristine && Honest(c, i, o)
    case _ => true
  }

  ghost predicate Inv(c: Config, s: State) {
    && |s.copies| == |s.stores| == c.workers && |s.tasks| == |c.mutants|
    // every queued copy is one of the copies, queued once, and identical to the pristine package
    && (forall k :: 0 <= k < |s.queue| ==> s.queue[k] < c.workers && s.copies[s.queue[k]] == c.pristine)
    && (forall k, l :: 0 <= k < l < |s.queue| ==> s.queue[k] != s.queue[l])
    // a leased copy is not in the queue, has one holder, and differs only in that holder's file
    && (forall i :: 0 <= i < |s.tasks| && s.tasks[i].Holds() ==>
          s.tasks[i].ws < c.workers && s.tasks[i].ws !in s.queue
          && HeldWell(c, i, s.tasks[i], s.copies[s.tasks[i].ws]))
    && (forall i, j :: 0 <= i < j < |s.tasks| && s.tasks[i].Holds() && s.tasks[j].Holds() ==>
          s.tasks[i].ws != s.tasks[j].ws)
    && (forall i :: 0 <= i < |s.tasks| && s.tasks[i].Done? ==> Honest(c, i, s.tasks[i].outcome))
    // the books balance: copies queued plus copies held is every copy; threads bound the active
    && |s.queue| + |Holders(s)| == c.workers
    && |ActiveTasks(s)| <= c.workers
  }

  lemma InitInv(c: Config)
    requires c.Valid()
    ensures Inv(c, Init(c))
  {
    assert Holders(Init(c)) == {} && ActiveTasks(Init(c)) == {};
  }

  /** How one task's change moves the two censuses. */
  lemma Census(s: State, i: nat, t: Task, s': State)
    requires i < |s.tasks| && s'.tasks == s.tasks[i := t]
    ensures |Holders(s')| == |Holders(s)| + (if t.Holds() then 1 else 0)
                                          - (if s.tasks[i].Holds() then 1 else 0)
    ensures |ActiveTasks(s')| == |ActiveTasks(s)| + (if t.Active() then 1 else 0)
                                                  - (if s.tasks[i].Active() then 1 else 0)
  {
    assert Holders(s) - {i} == Holders(s') - {i} by {
      forall j | j in Holders(s) - {i} ensures j in Holders(s') {}
      forall j | j in Holders(s') - {i} ensures j in Holders(s) {}
    }
    assert ActiveTasks(s) - {i} == ActiveTasks(s') - {i} by {
      forall j | j in ActiveTasks(s) - {i} ensures j in ActiveTasks(s') {}
      forall j | j in ActiveTasks(s') - {i} ensures j in ActiveTasks(s) {}
    }
    Without(Holders(s), i);
    Without(Holders(s'), i);
    Without(ActiveTasks(s), i);
    Without(ActiveTasks(s'), i);
  }

  lemma Without(a: set<nat>, x: nat)
    ensures |a - {x}| == |a| - if x in a then 1 else 0
  {
    if x !in a {
      assert a - {x} == a;
    }
  }

  /** A step of a holder: its copy stays its own, and every other copy is untouched. */
  lemma HolderStep(c: Config, s: State, i: nat, t: Task, s': State)
    requires Inv(c, s) && i < |s.tasks| && s.tasks[i].Holds()
    requires t.Holds() && t.ws == s.tasks[i].ws
    requires s'.queue == s.queue && s'.tasks == s.tasks[i := t]
    requires |s'.copies| == |s.copies| && |s'.stores| == |s.stores| && s'.copies == s.copies[t.ws := s'.copies[t.ws]]
    requires HeldWell(c, i, t, s'.copies[t.ws])
    ensures Inv(c, s')
  {
    Census(s, i, t, s');
    forall j | 0 <= j < |s'.tasks| && s'.tasks[j].Holds()
      ensures s'.tasks[j].ws < c.workers && s'.tasks[j].ws !in s'.queue
              && HeldWell(c, j, s'.tasks[j], s'.copies[s'.tasks[j].ws])
    {
      if j != i {
        assert s.tasks[j].Holds() && s.tasks[j].ws != t.ws;
      }
    }
    forall k | 0 <= k < |s'.queue| ensures s'.queue[k] < c.workers && s'.copies[s'.queue[k]] == c.pristine {
      assert s.queue[k] in s.queue;
    }
    forall k, l | 0 <= k < l < |s'.tasks| && s'.tasks[k].Holds() && s'.tasks[l].Holds()
      ensures s'.tasks[k].ws != s'.tasks[l].ws
    {
      assert s.tasks[k].Holds() && s.tasks[l].Holds();
    }
  }

  lemma GetInv(c: Config, s: State, i: nat)
    requires Inv(c, s) && Enabled(c, s, Get(i))
    ensures Inv(c, Apply(c, s, Get(i)))
  {
    var s' := Apply(c, s, Get(i));
    Census(s, i, Leased(s.queue[0]), s');
    assert s.queue[0] in s.queue;
    forall j | 0 <= j < |s'.tasks| && s'.tasks[j].Holds()
      ensures s'.tasks[j].ws < c.workers && s'.tasks[j].ws !in s'.queue
              && HeldWell(c, j, s'.tasks[j], s'.copies[s'.tasks[j].ws])
      ensures j != i ==> s'.tasks[j].ws != s.queue[0]
    {
      if j != i {
        assert s.tasks[j].Holds();
      }
    }
  }

  lemma PutInv(c: Config, s: State, i: nat)
    requires Inv(c, s) && Enabled(c, s, Put(i))
    ensures Inv(c, Apply(c, s, Put(i)))
  {
    var s' := Apply(c, s, Put(i));
    var t := s.tasks[i];
    Census(s, i, Done(t.outcome), s');
    forall j | 0 <= j < |s'.tasks| && s'.tasks[j].Holds()
      ensures s'.tasks[j].ws < c.workers && s'.tasks[j].ws !in s'.queue
              && HeldWell(c, j, s'.tasks[j], s'.copies[s'.tasks[j].ws])
    {
      assert j != i && s.tasks[j].Holds();
    }
  }

  lemma StepInv(c: Config, s: State, e: Event)
    requires c.Valid() && Inv(c, s) && Enabled(c, s, e)
    ensures Inv(c, Apply(c, s, e))
  {
    var s' := Apply(c, s, e);
    var i := e.i;
    if e.Pick? {
      Census(s, i, Waiting, s');
    } else if e.Get? {
      GetInv(c, s, i);
    } else if e.Put? {
      PutInv(c, s, i);
    } else {
      HeldStepWell(c, s, e);
      HolderStep(c, s, i, s'.tasks[i], s');
    }
  }

  lemma HeldStepWell(c: Config, s: State, e: Event)
    requires c.Valid() && Inv(c, s) && Enabled(c, s, e) && !e.Pick? && !e.Get? && !e.Put?
    ensures var s' := Apply(c, s, e); var t := s'.tasks[e.i];
            && t.Holds() && t.ws == s.tasks[e.i].ws < |s'.copies| == |s.copies|
            && |s'.stores| == |s.stores| && s'.copies == s.copies[t.ws := s'.copies[t.ws]]
            && HeldWell(c, e.i, t, s'.copies[t.ws])
  {
    var t := s.tasks[e.i];
    assert HeldWell(c, e.i, t, s.copies[t.ws]);
    if e.Restore? {
      var p, f := s.copies[t.ws], c.mutants[e.i].file;
      assert p[f := c.pristine[f]] == c.pristine;
    }
  }

  /** No copy is leased twice, every queued copy is pristine, and a leased one differs only in its
      holder's file: after any run, whatever the schedule. */
  lemma {:induction false} RunInv(c: Config, s: State, es: seq<Event>, s': State)
    requires c.Valid() && Inv(c, s) && IsRun(c, s, es, s')
    ensures Inv(c, s')
    decreases |es|
  {
    if es != [] {
      StepInv(c, s, es[0]);
      RunInv(c, Apply(c, s, es[0]), es[1..], s');
    }
  }

  // ----- nobody waits for ever -----

  /** A worker about to lease always finds a copy: `get` never blocks. */
  lemma GetNeverBlocks(c: Config, s: State, i: nat)
    requires Inv(c, s) && i < |s.tasks| && s.tasks[i].Waiting?
    ensures Enabled(c, s, Get(i))
  {
    assert i in ActiveTasks(s) && i !in Holders(s);
    StrictlyFewer(Holders(s), ActiveTasks(s), i);
  }

  lemma StrictlyFewer(a: set<nat>, b: set<nat>, x: nat)
    requires a <= b && x in b && x !in a
    ensures |a| < |b|
  {
    Fewer(a, b - {x});
  }

  lemma {:induction false} Fewer(a: set<nat>, b: set<nat>)
    requires a <= b
    ensures |a| <= |b|
    decreases a
  {
    if x :| x in a {
      Fewer(a - {x}, b - {x});
    }
  }

  /** Steps still owed by a task. */
  function Owed(c: Config, i: nat, t: Task): nat
    requires i < |c.mutants|
  {
    var n := c.mutants[i].looks;
    match t
    case Queued => n + 7
    case Waiting => n + 6
    case Leased(_) => n + 5
    case Running(_, seen) => if |seen| <= n then n - |seen| + 4 else 4
    case Scored(_, _) => 2
    case Restored(_, _) => 1
    case Done(_) => 0
  }

  function TotalOwed(c: Config, tasks: seq<Task>): nat
    requires |tasks| <= |c.mutants|
  {
    if tasks == [] then 0
    else TotalOwed(c, tasks[..|tasks| - 1]) + Owed(c, |tasks| - 1, tasks[|tasks| - 1])
  }

  lemma {:induction false} OwedUpdate(c: Config, tasks: seq<Task>, i: nat, t: Task)
    requires i < |tasks| <= |c.mutants|
    ensures TotalOwed(c, tasks[i := t]) == TotalOwed(c, tasks) - Owed(c, i, tasks[i]) + Owed(c, i, t)
  {
    var n := |tasks| - 1;
    if i == n {
      assert tasks[i := t][..n] == tasks[..n];
    } else {
      OwedUpdate(c, tasks[..n], i, t);
      assert tasks[i := t][..n] == tasks[..n][i := t];
    }
  }

  ghost predicate AllDone(s: State) {
    forall i :: 0 <= i < |s.tasks| ==> s.tasks[i].Done?
  }

  /** The first mutant no thread has taken. */
  lemma {:induction false} FirstQueued(s: State, i: nat) returns (j: nat)
    requires i < |s.tasks| && s.tasks[i].Queued?
    ensures j < |s.tasks| && s.tasks[j].Queued? && forall k :: 0 <= k < j ==> !s.tasks[k].Queued?
    decreases i
  {
    if k: nat :| k < i && s.tasks[k].Queued? {
      j := FirstQueued(s, k);
    } else {
      j := i;
    }
  }

  /** Until every mutant is done some thread can step, with neither a time-out nor an exception. */
  lemma Progress(c: Config, s: State) returns (e: Event)
    requires c.Valid() && Inv(c, s) && !AllDone(s)
    ensures Enabled(c, s, e) && !e.Throw? && !e.Expire?
  {
    var i: nat :| i < |s.tasks| && !s.tasks[i].Done?;
    if s.tasks[i].Active() {
      e := ActiveSteps(c, s, i);
    } else if |ActiveTasks(s)| < c.workers {
      var j := FirstQueued(s, i);
      e := Pick(j);
    } else {
      var j :| j in ActiveTasks(s);
      assert s.tasks[j].Active();
      e := ActiveSteps(c, s, j);
    }
  }

  lemma ActiveSteps(c: Config, s: State, j: nat) returns (e: Event)
    requires c.Valid() && Inv(c, s) && j < |s.tasks| && s.tasks[j].Active()
    ensures Enabled(c, s, e) && !e.Throw? && !e.Expire?
  {
    match s.tasks[j]
    case Waiting => GetNeverBlocks(c, s, j); e := Get(j);
    case Leased(_) => e := Write(j);
    case Running(_, seen) => e := if |seen| < c.mutants[j].looks then Look(j) else Score(j);
    case Scored(_, _) => e := Restore(j);
    case Restored(_, _) => e := Put(j);
  }

  /** Every run is finite: it is no longer than the work it started with. */
  lemma {:induction false} RunBounded(c: Config, s: State, es: seq<Event>, s': State)
    requires c.Valid() && Inv(c, s) && IsRun(c, s, es, s')
    ensures |s'.tasks| == |s.tasks|
    ensures |es| + TotalOwed(c, s'.tasks) <= TotalOwed(c, s.tasks)
    decreases |es|
  {
    if es != [] {
      var e := es[0];
      var m := Apply(c, s, e);
      StepInv(c, s, e);
      StepPays(c, s, e);
      RunBounded(c, m, es[1..], s');
    }
  }

  /** A step changes one task, and that task owes less. */
  lemma TaskPays(c: Config, s: State, e: Event)
    requires Enabled(c, s, e)
    ensures var tasks := Apply(c, s, e).tasks;
            |tasks| == |s.tasks| && tasks == s.tasks[e.i := tasks[e.i]]
            && Owed(c, e.i, tasks[e.i]) < Owed(c, e.i, s.tasks[e.i])
  {
  }

  lemma {:induction false} StepPays(c: Config, s: State, e: Event)
    requires Enabled(c, s, e)
    ensures TotalOwed(c, Apply(c, s, e).tasks) < TotalOwed(c, s.tasks)
  {
    TaskPays(c, s, e);
    OwedUpdate(c, s.tasks, e.i, Apply(c, s, e).tasks[e.i]);
  }

  // ----- what a mutant's tests read -----

  /** Whatever the schedule, a verdict on mutant `i` was reached by reading the package with mutant `i` alone
      applied, at every look; and a complete run leaves every copy back in the queue, pristine. */
  lemma {:induction false} ReadsItsOwn(c: Config, es: seq<Event>, s': State)
    requires c.Valid() && IsRun(c, Init(c), es, s') && AllDone(s')
    ensures |s'.tasks| == |c.mutants|
    ensures forall i :: 0 <= i < |c.mutants| && s'.tasks[i].outcome.Verdict? ==>
              s'.tasks[i].outcome.seen == seq(c.mutants[i].looks, _ => Alone(c, i))
    ensures |s'.queue| == |s'.copies| == c.workers
    ensures forall w :: 0 <= w < c.workers ==> s'.copies[w] == c.pristine
  {
    InitInv(c);
    RunInv(c, Init(c), es, s');
    assert Holders(s') == {};
    forall w | 0 <= w < c.workers ensures s'.copies[w] == c.pristine {
      Pigeonhole(s'.queue, c.workers, w);
    }
  }

  /** A sequence of `n` different numbers below `n` holds all of them. */
  lemma Pigeonhole(q: seq<nat>, n: nat, w: nat)
    requires |q| == n && w < n
    requires forall k :: 0 <= k < n ==> q[k] < n
    requires forall k, l :: 0 <= k < l < n ==> q[k] != q[l]
    ensures w in q
  {
    BelowAll(n);
    Distinct(q);
    var mine := set k | 0 <= k < n :: q[k];
    if w !in q {
      assert mine <= Below(n) - {w};
      Fewer(mine, Below(n) - {w});
    }
  }

  function Below(n: nat): set<nat> {
    if n == 0 then {} else Below(n - 1) + {n - 1}
  }

  lemma {:induction false} BelowAll(n: nat)
    ensures |Below(n)| == n
    ensures forall x: nat :: x in Below(n) <==> x < n
  {
    if n > 0 {
      BelowAll(n - 1);
    }
  }

  lemma {:induction false} Distinct(q: seq<nat>)
    requires forall k, l :: 0 <= k < l < |q| ==> q[k] != q[l]
    ensures |set k | 0 <= k < |q| :: q[k]| == |q|
  {
    if q != [] {
      var n := |q| - 1;
      Distinct(q[..n]);
      assert (set k | 0 <= k < |q| :: q[k]) == (set k | 0 <= k < n :: q[..n][k]) + {q[n]};
    }
  }

  // ----- the pre-flight -----

  class Workspace {
    var files: Package
    var store: Store

    constructor (pristine: Package)
      ensures files == pristine && store == {}
    {
      files, store := pristine, {};
    }

    /** `control`: installs the unparsed, unmutated module, runs the selection over it, and leaves
        the copy as it found it, and the store as the tests leave it. */
    method Control(m: Mutant, pristine: Package, tests: Tests) returns (brokenBy: Option<string>)
      requires m.file in pristine && files == pristine
      modifies this
      ensures files == pristine
      ensures var seen := seq(m.looks, _ => pristine[m.file := m.source]);
              brokenBy == tests.judge(m.file, seen, old(store)) && store == tests.leave(m.file, seen, old(store))
    {
      files := files[m.file := m.source];
      var seen := [];
      for k := 0 to m.looks
        invariant files == pristine[m.file := m.source] && store == old(store)
        invariant seen == seq(k, _ => pristine[m.file := m.source])
      {
        seen := seen + [files];
      }
      assert seen == seq(m.looks, _ => pristine[m.file := m.source]);
      brokenBy, store := tests.judge(m.file, seen, store), tests.leave(m.file, seen, store);
      files := files[m.file := pristine[m.file]];
      assert files == pristine;
    }

    /** The pre-flight: every control in workspace 0, up to the first that fails. */
    method PreFlight(c: Config) returns (ok: bool)
      requires c.Valid() && files == c.pristine && store == {}
      modifies this
      ensures files == c.pristine
      ensures ok ==> store == Start(c, 0)
      ensures ok <==> forall j :: 0 <= j < |c.controls| ==> Passes(c, j)
    {
      ok := true;
      for j := 0 to |c.controls|
        invariant ok && files == c.pristine && store == ControlStore(c, j)
        invariant forall k :: 0 <= k < j ==> Passes(c, k)
      {
        var brokenBy := Control(c.controls[j], c.pristine, c.tests);
        if brokenBy.Some? {
          assert !Passes(c, j);
          return false;
        }
        assert Passes(c, j);
      }
    }
  }

  /** Control run `j` passes, on the store the ones before it left. */
  predicate Passes(c: Config, j: nat)
    requires j < |c.controls|
  {
    c.tests.judge(c.controls[j].file, seq(c.controls[j].looks, _ => Unparsed(c, j)), ControlStore(c, j)).None?
  }
}
