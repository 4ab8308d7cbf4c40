/** What the store of examples does to a parallel mutation run (decile-blueprint/tools/mutation.py). A
    workspace's store outlives a lease, so a mutant's tests may find what earlier mutants left there.

    Which mutants can come before which in which workspace depends on the queue and on the number of
    threads alone. It is worked out here on words of takes and gives, and decides exactly when a mutant's
    outcome is its own. */
module ExampleStores {
  import opened Options
  import opened LeaseQueue

  // ----- the order of leases -----

  /** A thread takes a workspace for mutant `i`, or gives it back. */
  datatype Lease = Take(i: nat) | Give(i: nat)

  function Taken(word: seq<Lease>): nat {
    if word == [] then 0 else Taken(word[..|word| - 1]) + if word[|word| - 1].Take? then 1 else 0
  }

  function Given(word: seq<Lease>): nat {
    if word == [] then 0 else Given(word[..|word| - 1]) + if word[|word| - 1].Give? then 1 else 0
  }

  /** `l` may come next, for `workers` threads and `n` mutants: a free workspace, a mutant the threads have come
      to, and a workspace that is held to give back. */
  predicate MayFollow(workers: nat, n: nat, word: seq<Lease>, l: Lease) {
    match l
    case Take(i) => i < n && l !in word && Taken(word) < Given(word) + workers && i < Given(word) + workers
    case Give(i) => i < n && Take(i) in word && l !in word
  }

  predicate IsOrder(workers: nat, n: nat, word: seq<Lease>) {
    word == []
    || (IsOrder(workers, n, word[..|word| - 1]) && MayFollow(workers, n, word[..|word| - 1], word[|word| - 1]))
  }

  /** The queue; who has had each workspace, in order; and where each mutant went and whom it found there. */
  datatype Pool = Pool(queue: seq<nat>, past: seq<seq<nat>>, at: map<nat, nat>, before: map<nat, seq<nat>>)

  function Replay(workers: nat, word: seq<Lease>): (q: Pool)
    ensures |q.past| == workers && q.at.Keys == q.before.Keys
    ensures forall k :: 0 <= k < |q.queue| ==> q.queue[k] < workers
    ensures forall i :: i in q.at ==> q.at[i] < workers
  {
    if word == [] then Pool(seq(workers, w => w), seq(workers, w => []), map[], map[])
    else Led(workers, Replay(workers, word[..|word| - 1]), word[|word| - 1])
  }

  function Led(workers: nat, q: Pool, l: Lease): (r: Pool)
    requires |q.past| == workers && q.at.Keys == q.before.Keys
    requires forall k :: 0 <= k < |q.queue| ==> q.queue[k] < workers
    requires forall i :: i in q.at ==> q.at[i] < workers
    ensures |r.past| == workers && r.at.Keys == r.before.Keys
    ensures forall k :: 0 <= k < |r.queue| ==> r.queue[k] < workers
    ensures forall i :: i in r.at ==> r.at[i] < workers
  {
    match l
    case Take(i) =>
      if q.queue == [] then q
      else
        var w := q.queue[0];
        Pool(q.queue[1..], q.past[w := q.past[w] + [i]], q.at[i := w], q.before[i := q.past[w]])
    case Give(i) => if i in q.at then q.(queue := q.queue + [q.at[i]]) else q
  }

  /** In some order of leases, mutant `i` finds workspace `w` after the mutants `js`. */
  ghost predicate CanFollow(workers: nat, n: nat, i: nat, w: nat, js: seq<nat>) {
    exists word :: Follows(workers, n, word, i, w, js)
  }

  ghost predicate Follows(workers: nat, n: nat, word: seq<Lease>, i: nat, w: nat, js: seq<nat>) {
    && IsOrder(workers, n, word) && MayFollow(workers, n, word, Take(i))
    && var q := Replay(workers, word);
       q.queue != [] && q.queue[0] == w && q.past[w] == js
  }

  // ----- what the tests make of it -----

  function JudgeOf(c: Config, i: nat, store: Store): Option<string>
    requires i < |c.mutants|
  {
    c.tests.judge(c.mutants[i].file, seq(c.mutants[i].looks, _ => Alone(c, i)), store)
  }

  function LeaveOf(c: Config, i: nat, store: Store): Store {
    if i < |c.mutants| then c.tests.leave(c.mutants[i].file, seq(c.mutants[i].looks, _ => Alone(c, i)), store)
    else store
  }

  /** The store of workspace `w` after the mutants `js`. */
  function LeftBy(c: Config, w: nat, js: seq<nat>): Store {
    if js == [] then Start(c, w) else LeaveOf(c, js[|js| - 1], LeftBy(c, w, js[..|js| - 1]))
  }

  lemma LeftByMore(c: Config, w: nat, js: seq<nat>, i: nat)
    ensures LeftBy(c, w, js + [i]) == LeaveOf(c, i, LeftBy(c, w, js))
  {
    assert (js + [i])[..|js|] == js;
  }

  /** Mutant `i` evaluated by itself: the package with it alone, and an empty store. */
  function AloneOutcome(c: Config, i: nat): Outcome
    requires i < |c.mutants|
  {
    OutcomeOn(c, i, {})
  }

  function OutcomeOn(c: Config, i: nat, store: Store): Outcome
    requires i < |c.mutants|
  {
    Verdict(seq(c.mutants[i].looks, _ => Alone(c, i)), JudgeOf(c, i, store))
  }

  /** Its verdict is the same after every sequence of mutants that can come before it in a workspace, the
      control runs of workspace 0 included. */
  ghost predicate Settled(c: Config, i: nat)
    requires i < |c.mutants|
  {
    forall w, js :: CanFollow(c.workers, |c.mutants|, i, w, js) ==> JudgeOf(c, i, LeftBy(c, w, js)) == JudgeOf(c, i, {})
  }

  // ----- a run and its word -----

  function LeaseOf(e: Event): seq<Lease> {
    if e.Get? then [Take(e.i)] else if e.Put? then [Give(e.i)] else []
  }

  function WordOf(es: seq<Event>): seq<Lease> {
    if es == [] then [] else LeaseOf(es[0]) + WordOf(es[1..])
  }

  lemma {:induction false} WordsJoin(a: seq<Event>, b: seq<Event>)
    ensures WordOf(a + b) == WordOf(a) + WordOf(b)
  {
    if a == [] {
      assert a + b == b;
    } else {
      WordsJoin(a[1..], b);
      assert (a + b)[1..] == a[1..] + b && (a + b)[0] == a[0];
      Associates(LeaseOf(a[0]), WordOf(a[1..]), WordOf(b));
    }
  }

  lemma Associates(x: seq<Lease>, y: seq<Lease>, z: seq<Lease>)
    ensures x + (y + z) == (x + y) + z
  {
  }

  lemma {:induction false} RunsJoin(c: Config, s: State, a: seq<Event>, m: State, b: seq<Event>, s': State)
    requires IsRun(c, s, a, m) && IsRun(c, m, b, s')
    ensures IsRun(c, s, a + b, s')
    decreases |a|
  {
    if a == [] {
      assert a + b == b;
    } else {
      RunsJoin(c, Apply(c, s, a[0]), a[1..], m, b, s');
      assert (a + b)[1..] == a[1..] + b;
    }
  }

  ghost predicate Undisturbed(es: seq<Event>) {
    forall k :: 0 <= k < |es| ==> !es[k].Throw? && !es[k].Expire?
  }

  /** The threads have come to the first `p` mutants, and the word says who holds and who is done. */
  ghost predicate Linked(c: Config, s: State, word: seq<Lease>, p: nat) {
    match s
    case State(_, _, _, tasks) =>
      && Inv(c, s) && IsOrder(c.workers, |c.mutants|, word) && p <= |tasks|
      && (forall i: nat :: i < |tasks| ==> TaskLinked(tasks[i], i, word, p))
      && |ActiveTasks(s)| + Given(word) == p && |Holders(s)| + Given(word) == Taken(word)
  }

  ghost predicate TaskLinked(t: Task, i: nat, word: seq<Lease>, p: nat) {
    && (t.Queued? <==> i >= p) && (Take(i) in word <==> t.Holds() || t.Done?) && (Give(i) in word <==> t.Done?)
  }

  /** A task, against the replay of the word. */
  ghost predicate TaskStored(c: Config, s: State, q: Pool, i: nat)
    requires i < |s.tasks| == |c.mutants|
  {
    match s.tasks[i]
    case Queued => true
    case Waiting => true
    case Leased(ws) => Fresh(c, s, q, i, ws)
    case Running(ws, _) => Fresh(c, s, q, i, ws)
    case Scored(ws, o) => Finished(c, q, i, o) && q.at[i] == ws < |s.stores| == |q.past|
      && s.stores[ws] == LeftBy(c, ws, q.past[ws])
    case Restored(ws, o) => Finished(c, q, i, o) && q.at[i] == ws < |s.stores| == |q.past|
      && s.stores[ws] == LeftBy(c, ws, q.past[ws])
    case Done(o) => Finished(c, q, i, o)
  }

  ghost predicate Fresh(c: Config, s: State, q: Pool, i: nat, ws: nat) {
    && i in q.at && i in q.before && q.at[i] == ws < |s.stores| == |q.past|
    && s.stores[ws] == LeftBy(c, ws, q.before[i]) && q.past[ws] == q.before[i] + [i]
  }

  ghost predicate Finished(c: Config, q: Pool, i: nat, o: Outcome)
    requires i < |c.mutants|
  {
    i in q.at && i in q.before && o == OutcomeOn(c, i, LeftBy(c, q.at[i], q.before[i]))
  }

  ghost predicate Stored(c: Config, s: State, q: Pool) {
    match s
    case State(queue, _, stores, tasks) =>
      && q.queue == queue && |q.past| == c.workers == |stores| && |tasks| == |c.mutants|
      && (forall i: nat :: i < |tasks| ==> TaskStored(c, s, q, i))
      && (forall k :: 0 <= k < |queue| ==>
          queue[k] < c.workers && stores[queue[k]] == LeftBy(c, queue[k], q.past[queue[k]]))
  }

  lemma LinkedStart(c: Config)
    requires c.Valid()
    ensures Linked(c, Init(c), [], 0) && Stored(c, Init(c), Replay(c.workers, []))
  {
    InitInv(c);
    assert Holders(Init(c)) == {} && ActiveTasks(Init(c)) == {};
  }

  /** One task moves on, its workspace's store perhaps with it, and nothing is taken or given. */
  lemma HeldLinked(c: Config, s: State, e: Event, word: seq<Lease>, p: nat)
    requires c.Valid() && Linked(c, s, word, p) && Enabled(c, s, e) && !e.Pick? && !e.Get? && !e.Put?
    ensures Linked(c, Apply(c, s, e), word, p)
  {
    var s' := Apply(c, s, e);
    StepInv(c, s, e);
    Census(s, e.i, s'.tasks[e.i], s');
    forall i: nat | i < |s'.tasks| ensures TaskLinked(s'.tasks[i], i, word, p) {
      assert TaskLinked(s.tasks[i], i, word, p);
    }
  }

  lemma PickLinked(c: Config, s: State, i: nat, word: seq<Lease>, p: nat)
    requires c.Valid() && Linked(c, s, word, p) && Enabled(c, s, Pick(i))
    ensures i == p && Linked(c, Apply(c, s, Pick(i)), word, p + 1)
  {
    var s' := Apply(c, s, Pick(i));
    StepInv(c, s, Pick(i));
    Census(s, i, Waiting, s');
    assert TaskLinked(s.tasks[i], i, word, p);
    assert TaskLinked(s.tasks[p], p, word, p);
    forall j: nat | j < |s'.tasks| ensures TaskLinked(s'.tasks[j], j, word, p + 1) {
      assert TaskLinked(s.tasks[j], j, word, p);
    }
  }

  lemma CountMore(word: seq<Lease>, l: Lease)
    ensures Taken(word + [l]) == Taken(word) + if l.Take? then 1 else 0
    ensures Given(word + [l]) == Given(word) + if l.Give? then 1 else 0
  {
    assert (word + [l])[..|word|] == word;
  }

  lemma ReplayMore(workers: nat, word: seq<Lease>, l: Lease)
    ensures Replay(workers, word + [l]) == Led(workers, Replay(workers, word), l)
  {
    assert (word + [l])[..|word|] == word;
  }

  lemma OrderMore(workers: nat, n: nat, word: seq<Lease>, l: Lease)
    ensures IsOrder(workers, n, word + [l]) <==> IsOrder(workers, n, word) && MayFollow(workers, n, word, l)
    ensures Replay(workers, word + [l]) == Led(workers, Replay(workers, word), l)
  {
    assert (word + [l])[..|word|] == word;
  }

  lemma GetLinked(c: Config, s: State, i: nat, word: seq<Lease>, p: nat)
    requires c.Valid() && Linked(c, s, word, p) && Enabled(c, s, Get(i))
    ensures MayFollow(c.workers, |c.mutants|, word, Take(i)) && Linked(c, Apply(c, s, Get(i)), word + [Take(i)], p)
  {
    var s' := Apply(c, s, Get(i));
    StepInv(c, s, Get(i));
    Census(s, i, Leased(s.queue[0]), s');
    assert TaskLinked(s.tasks[i], i, word, p);
    CountMore(word, Take(i));
    OrderMore(c.workers, |c.mutants|, word, Take(i));
    forall j: nat | j < |s'.tasks| ensures TaskLinked(s'.tasks[j], j, word + [Take(i)], p) {
      assert TaskLinked(s.tasks[j], j, word, p);
    }
  }

  lemma PutLinked(c: Config, s: State, i: nat, word: seq<Lease>, p: nat)
    requires c.Valid() && Linked(c, s, word, p) && Enabled(c, s, Put(i))
    ensures MayFollow(c.workers, |c.mutants|, word, Give(i)) && Linked(c, Apply(c, s, Put(i)), word + [Give(i)], p)
  {
    var s' := Apply(c, s, Put(i));
    StepInv(c, s, Put(i));
    Census(s, i, Done(s.tasks[i].outcome), s');
    assert TaskLinked(s.tasks[i], i, word, p);
    CountMore(word, Give(i));
    OrderMore(c.workers, |c.mutants|, word, Give(i));
    forall j: nat | j < |s'.tasks| ensures TaskLinked(s'.tasks[j], j, word + [Give(i)], p) {
      assert TaskLinked(s.tasks[j], j, word, p);
    }
  }

  /** The threads' place after a step. */
  function Reached(e: Event, p: nat): nat {
    if e.Pick? then p + 1 else p
  }

  lemma StepLinked(c: Config, s: State, e: Event, word: seq<Lease>, p: nat)
    requires c.Valid() && Linked(c, s, word, p) && Enabled(c, s, e)
    ensures Linked(c, Apply(c, s, e), word + LeaseOf(e), Reached(e, p))
  {
    if e.Pick? {
      PickLinked(c, s, e.i, word, p);
    } else if e.Get? {
      GetLinked(c, s, e.i, word, p);
    } else if e.Put? {
      PutLinked(c, s, e.i, word, p);
    } else {
      HeldLinked(c, s, e, word, p);
    }
    assert LeaseOf(e) == [] ==> word + LeaseOf(e) == word;
  }

  // ----- the stores of a run -----

  lemma GetStored(c: Config, s: State, i: nat, q: Pool)
    requires Inv(c, s) && Stored(c, s, q) && q.at.Keys == q.before.Keys && Enabled(c, s, Get(i))
    requires forall j :: j in q.at ==> q.at[j] < c.workers
    ensures Stored(c, Apply(c, s, Get(i)), Led(c.workers, q, Take(i)))
  {
    var s', q', w := Apply(c, s, Get(i)), Led(c.workers, q, Take(i)), s.queue[0];
    assert w in s.queue;
    forall j: nat | j < |s'.tasks| ensures TaskStored(c, s', q', j) {
      assert TaskStored(c, s, q, j);
      if j != i && s.tasks[j].Holds() {
        assert s.tasks[j].ws != w;
      }
    }
  }

  lemma PutStored(c: Config, s: State, i: nat, q: Pool)
    requires Inv(c, s) && Stored(c, s, q) && q.at.Keys == q.before.Keys && Enabled(c, s, Put(i))
    requires forall j :: j in q.at ==> q.at[j] < c.workers
    ensures Stored(c, Apply(c, s, Put(i)), Led(c.workers, q, Give(i)))
  {
    var s', q' := Apply(c, s, Put(i)), Led(c.workers, q, Give(i));
    assert TaskStored(c, s, q, i);
    forall j: nat | j < |s'.tasks| ensures TaskStored(c, s', q', j) {
      assert TaskStored(c, s, q, j);
    }
  }

  /** A step of a holder touches no store but its own. */
  lemma HeldStored(c: Config, s: State, e: Event, q: Pool)
    requires Inv(c, s) && Stored(c, s, q) && Enabled(c, s, e) && !e.Get? && !e.Put? && !e.Throw? && !e.Expire?
    ensures Stored(c, Apply(c, s, e), q)
  {
    var s', i := Apply(c, s, e), e.i;
    assert TaskStored(c, s, q, i);
    if e.Score? {
      ScoreStored(c, s, i, q);
    }
    forall j: nat | j < |s'.tasks| ensures TaskStored(c, s', q, j) {
      assert TaskStored(c, s, q, j);
      if j != i && s.tasks[j].Holds() && s.tasks[i].Holds() {
        OtherHolder(c, s, i, j);
      }
    }
    forall k | 0 <= k < |s'.queue| ensures s'.stores[s'.queue[k]] == LeftBy(c, s'.queue[k], q.past[s'.queue[k]]) {
      assert s.queue[k] in s.queue;
    }
  }

  lemma OtherHolder(c: Config, s: State, i: nat, j: nat)
    requires Inv(c, s) && i < |s.tasks| && j < |s.tasks| && i != j && s.tasks[i].Holds() && s.tasks[j].Holds()
    ensures s.tasks[i].ws != s.tasks[j].ws
  {
  }

  lemma ScoreStored(c: Config, s: State, i: nat, q: Pool)
    requires Inv(c, s) && Stored(c, s, q) && Enabled(c, s, Score(i))
    ensures TaskStored(c, Apply(c, s, Score(i)), q, i)
  {
    assert TaskStored(c, s, q, i);
    var t := s.tasks[i];
    assert HeldWell(c, i, t, s.copies[t.ws]);
    assert t.seen == seq(c.mutants[i].looks, _ => Alone(c, i));
    LeftByMore(c, t.ws, q.before[i], i);
  }

  lemma StepStored(c: Config, s: State, e: Event, word: seq<Lease>, p: nat)
    requires c.Valid() && Linked(c, s, word, p) && Enabled(c, s, e) && !e.Throw? && !e.Expire?
    requires Stored(c, s, Replay(c.workers, word))
    ensures Stored(c, Apply(c, s, e), Replay(c.workers, word + LeaseOf(e)))
  {
    var q := Replay(c.workers, word);
    if e.Get? {
      GetStored(c, s, e.i, q);
      OrderMore(c.workers, |c.mutants|, word, Take(e.i));
    } else if e.Put? {
      PutStored(c, s, e.i, q);
      OrderMore(c.workers, |c.mutants|, word, Give(e.i));
    } else {
      HeldStored(c, s, e, q);
      assert word + LeaseOf(e) == word;
    }
  }

  /** A state of an undisturbed run, and its word so far. */
  ghost predicate Tracks(c: Config, s: State, word: seq<Lease>, p: nat) {
    match s
    case State(_, _, _, _) => Linked(c, s, word, p) && Stored(c, s, Replay(c.workers, word))
  }

  lemma StepTracks(c: Config, s: State, e: Event, word: seq<Lease>, p: nat)
    requires c.Valid() && Tracks(c, s, word, p) && Enabled(c, s, e) && !e.Throw? && !e.Expire?
    ensures Tracks(c, Apply(c, s, e), word + LeaseOf(e), Reached(e, p))
  {
    StepLinked(c, s, e, word, p);
    StepStored(c, s, e, word, p);
  }

  lemma WordGoesOn(word: seq<Lease>, es: seq<Event>)
    requires es != []
    ensures word + LeaseOf(es[0]) + WordOf(es[1..]) == word + WordOf(es)
  {
  }

  /** An undisturbed run is as its word says. */
  lemma {:induction false} RunTracks(c: Config, s: State, es: seq<Event>, s': State, word: seq<Lease>, p: nat)
    returns (p': nat)
    requires c.Valid() && Tracks(c, s, word, p) && IsRun(c, s, es, s') && Undisturbed(es)
    ensures Tracks(c, s', word + WordOf(es), p')
    decreases |es|
  {
    if es == [] {
      p' := p;
      assert word + WordOf(es) == word;
    } else {
      StepTracks(c, s, es[0], word, p);
      p' := RunTracks(c, Apply(c, s, es[0]), es[1..], s', word + LeaseOf(es[0]), Reached(es[0], p));
      WordGoesOn(word, es);
    }
  }

  // ----- every order of leases is some run's -----

  /** No holder has begun: what a word without its runs' details comes to. */
  ghost predicate Calm(s: State) {
    forall i :: 0 <= i < |s.tasks| && s.tasks[i].Holds() ==> s.tasks[i].Leased?
  }

  /** A state that an undisturbed run reaches, with its word. */
  ghost predicate Reaches(c: Config, s: State, word: seq<Lease>, p: nat) {
    match s
    case State(_, _, _, _) =>
      Tracks(c, s, word, p) && exists es :: Spells(c, es, s, word)
  }

  /** An undisturbed run to a state, and its word. */
  ghost predicate Spells(c: Config, es: seq<Event>, s: State, word: seq<Lease>) {
    IsRun(c, Init(c), es, s) && Undisturbed(es) && WordOf(es) == word
  }

  lemma SpellsMore(c: Config, es: seq<Event>, s: State, e: Event, word: seq<Lease>)
    requires Spells(c, es, s, word) && Enabled(c, s, e) && !e.Throw? && !e.Expire?
    ensures Spells(c, es + [e], Apply(c, s, e), word + LeaseOf(e))
  {
    assert [e][1..] == [] && IsRun(c, s, [e], Apply(c, s, e));
    RunsJoin(c, Init(c), es, s, [e], Apply(c, s, e));
    WordsJoin(es, [e]);
    assert WordOf([e]) == LeaseOf(e) + WordOf([]);
  }

  lemma ReachesInv(c: Config, s: State, word: seq<Lease>, p: nat)
    requires Reaches(c, s, word, p)
    ensures Inv(c, s) && Linked(c, s, word, p)
  {
  }

  lemma ReachesStep(c: Config, s: State, e: Event, word: seq<Lease>, p: nat)
    requires c.Valid() && Reaches(c, s, word, p) && Enabled(c, s, e) && !e.Throw? && !e.Expire?
    ensures Reaches(c, Apply(c, s, e), word + LeaseOf(e), Reached(e, p))
  {
    var es :| Spells(c, es, s, word);
    StepTracks(c, s, e, word, p);
    SpellsMore(c, es, s, e, word);
  }

  lemma ReachesRun(c: Config, s: State, more: seq<Event>, s': State, word: seq<Lease>, p: nat) returns (p': nat)
    requires c.Valid() && Reaches(c, s, word, p) && IsRun(c, s, more, s') && Undisturbed(more)
    ensures Reaches(c, s', word + WordOf(more), p')
  {
    var es :| Spells(c, es, s, word);
    p' := RunTracks(c, s, more, s', word, p);
    RunsJoin(c, Init(c), es, s, more, s');
    WordsJoin(es, more);
    assert Spells(c, es + more, s', word + WordOf(more));
  }

  /** A stretch of an undisturbed run in which task `i` alone moves. */
  ghost predicate Stretch(c: Config, s: State, es: seq<Event>, s': State, i: nat) {
    match s
    case State(_, _, _, tasks) =>
      && IsRun(c, s, es, s') && Undisturbed(es) && Inv(c, s')
      && i < |tasks| == |s'.tasks| && s'.tasks == tasks[i := s'.tasks[i]]
  }

  /** One more step before it. */
  lemma StepThen(c: Config, s: State, e: Event, es: seq<Event>, s': State)
    requires c.Valid() && Inv(c, s) && Enabled(c, s, e) && !e.Throw? && !e.Expire?
    requires Stretch(c, Apply(c, s, e), es, s', e.i)
    ensures Stretch(c, s, [e] + es, s', e.i) && WordOf([e] + es) == LeaseOf(e) + WordOf(es)
  {
    TaskPays(c, s, e);
    assert ([e] + es)[1..] == es;
  }

  /** The workspace is given back. */
  lemma GivesBack(c: Config, s: State, i: nat) returns (es: seq<Event>, s': State)
    requires c.Valid() && Inv(c, s) && i < |s.tasks| && s.tasks[i].Restored?
    ensures Stretch(c, s, es, s', i) && s'.tasks[i].Done? && WordOf(es) == [Give(i)]
  {
    StepInv(c, s, Put(i));
    s', es := Apply(c, s, Put(i)), [Put(i)] + [];
    StepThen(c, s, Put(i), [], s');
  }

  /** The file is restored first. */
  lemma Restores(c: Config, s: State, i: nat) returns (es: seq<Event>, s': State)
    requires c.Valid() && Inv(c, s) && i < |s.tasks| && s.tasks[i].Scored?
    ensures Stretch(c, s, es, s', i) && s'.tasks[i].Done? && WordOf(es) == [Give(i)]
  {
    StepInv(c, s, Restore(i));
    var rest;
    rest, s' := GivesBack(c, Apply(c, s, Restore(i)), i);
    StepThen(c, s, Restore(i), rest, s');
    es := [Restore(i)] + rest;
  }

  /** And before that the tests look as often as they do, and answer. */
  lemma {:induction false} Answers(c: Config, s: State, i: nat) returns (es: seq<Event>, s': State)
    requires c.Valid() && Inv(c, s) && i < |s.tasks| && s.tasks[i].Running?
    ensures Stretch(c, s, es, s', i) && s'.tasks[i].Done? && WordOf(es) == [Give(i)]
    decreases c.mutants[i].looks - |s.tasks[i].seen|
  {
    var e := if |s.tasks[i].seen| < c.mutants[i].looks then Look(i) else Score(i);
    StepInv(c, s, e);
    var rest;
    if e.Look? {
      rest, s' := Answers(c, Apply(c, s, e), i);
    } else {
      rest, s' := Restores(c, Apply(c, s, e), i);
    }
    StepThen(c, s, e, rest, s');
    es := [e] + rest;
  }

  /** A holder runs its tests and gives its workspace back. */
  lemma Evaluates(c: Config, s: State, i: nat) returns (es: seq<Event>, s': State)
    requires c.Valid() && Inv(c, s) && i < |s.tasks| && s.tasks[i].Leased?
    ensures Stretch(c, s, es, s', i) && s'.tasks[i].Done? && WordOf(es) == [Give(i)]
  {
    StepInv(c, s, Write(i));
    var rest;
    rest, s' := Answers(c, Apply(c, s, Write(i)), i);
    StepThen(c, s, Write(i), rest, s');
    es := [Write(i)] + rest;
  }

  lemma GiveRuns(c: Config, s1: State, i: nat, word: seq<Lease>, p1: nat) returns (s: State, p: nat)
    requires c.Valid() && Reaches(c, s1, word, p1) && Calm(s1) && MayFollow(c.workers, |c.mutants|, word, Give(i))
    ensures Reaches(c, s, word + [Give(i)], p) && Calm(s)
  {
    ReachesInv(c, s1, word, p1);
    assert TaskLinked(s1.tasks[i], i, word, p1);
    var es;
    es, s := Evaluates(c, s1, i);
    p := ReachesRun(c, s1, es, s, word, p1);
    StaysCalm(s1, s, i);
  }

  lemma StaysCalm(s: State, s': State, i: nat)
    requires Calm(s) && i < |s.tasks| == |s'.tasks| && s'.tasks == s.tasks[i := s'.tasks[i]] && s'.tasks[i].Done?
    ensures Calm(s')
  {
  }

  /** The threads come to mutant `i`. */
  lemma {:induction false} Picks(c: Config, s: State, i: nat, word: seq<Lease>, p: nat) returns (s': State, p': nat)
    requires c.Valid() && Reaches(c, s, word, p) && Calm(s) && i < |s.tasks| && i < Given(word) + c.workers
    ensures Reaches(c, s', word, p') && Calm(s') && i < p' && |s'.tasks| == |s.tasks|
    decreases i + 1 - p
  {
    if i < p {
      s', p' := s, p;
    } else {
      NextPick(c, s, word, p);
      ReachesStep(c, s, Pick(p), word, p);
      assert word + LeaseOf(Pick(p)) == word;
      s', p' := Picks(c, Apply(c, s, Pick(p)), i, word, p + 1);
    }
  }

  lemma NextPick(c: Config, s: State, word: seq<Lease>, p: nat)
    requires Linked(c, s, word, p) && p < |s.tasks| && p < Given(word) + c.workers
    ensures Enabled(c, s, Pick(p))
  {
    assert TaskLinked(s.tasks[p], p, word, p);
    forall j | 0 <= j < p ensures !s.tasks[j].Queued? {
      assert TaskLinked(s.tasks[j], j, word, p);
    }
  }

  /** Every order of leases is the word of an undisturbed run. */
  lemma {:induction false} OrderRuns(c: Config, word: seq<Lease>) returns (s: State, p: nat)
    requires c.Valid() && IsOrder(c.workers, |c.mutants|, word)
    ensures Reaches(c, s, word, p) && Calm(s)
    decreases |word|
  {
    if word == [] {
      s, p := Init(c), 0;
      NothingRuns(c);
    } else {
      var s1, p1 := OrderRuns(c, word[..|word| - 1]);
      s, p := LeaseRuns(c, s1, word, p1);
    }
  }

  lemma NothingRuns(c: Config)
    requires c.Valid()
    ensures Reaches(c, Init(c), [], 0) && Calm(Init(c))
  {
    LinkedStart(c);
    assert Spells(c, [], Init(c), []);
  }

  lemma LeaseRuns(c: Config, s1: State, word: seq<Lease>, p1: nat) returns (s: State, p: nat)
    requires c.Valid() && word != [] && Reaches(c, s1, word[..|word| - 1], p1) && Calm(s1)
    requires MayFollow(c.workers, |c.mutants|, word[..|word| - 1], word[|word| - 1])
    ensures Reaches(c, s, word, p) && Calm(s)
  {
    var front, l := word[..|word| - 1], word[|word| - 1];
    assert word == front + [l];
    if l.Take? {
      s, p := TakeRuns(c, s1, l.i, front, p1);
    } else {
      s, p := GiveRuns(c, s1, l.i, front, p1);
    }
  }

  lemma TakeRuns(c: Config, s1: State, i: nat, word: seq<Lease>, p1: nat) returns (s: State, p: nat)
    requires c.Valid() && Reaches(c, s1, word, p1) && Calm(s1) && MayFollow(c.workers, |c.mutants|, word, Take(i))
    ensures Reaches(c, s, word + [Take(i)], p) && Calm(s)
  {
    var s2;
    s2, p := Picks(c, s1, i, word, p1);
    assert TaskLinked(s2.tasks[i], i, word, p);
    ReachesStep(c, s2, Get(i), word, p);
    s := Apply(c, s2, Get(i));
  }

  /** Every undisturbed run can be completed. */
  lemma {:induction false} Completes(c: Config, s: State) returns (es: seq<Event>, s': State)
    requires c.Valid() && Inv(c, s)
    ensures IsRun(c, s, es, s') && Undisturbed(es) && AllDone(s') && |s'.tasks| == |c.mutants|
    decreases TotalOwed(c, s.tasks)
  {
    if AllDone(s) {
      es, s' := [], s;
    } else {
      var e := Progress(c, s);
      StepPays(c, s, e);
      StepInv(c, s, e);
      var rest;
      rest, s' := Completes(c, Apply(c, s, e));
      es := [e] + rest;
      assert es[1..] == rest;
    }
  }

  // ----- whose outcome is its own -----

  /** What a mutant took and found does not change as the word goes on. */
  lemma {:induction false} FoundStands(workers: nat, n: nat, word: seq<Lease>, more: seq<Lease>, i: nat)
    requires IsOrder(workers, n, word + more) && Take(i) in word && i in Replay(workers, word).at
    ensures var q, r := Replay(workers, word), Replay(workers, word + more);
            i in r.at && r.at[i] == q.at[i] && r.before[i] == q.before[i]
    decreases |more|
  {
    if more == [] {
      assert word + more == word;
    } else {
      var front, l := more[..|more| - 1], more[|more| - 1];
      assert word + more == (word + front) + [l];
      OrderMore(workers, n, word + front, l);
      FoundStands(workers, n, word, front, i);
      assert Take(i) in word + front;
      LedStands(workers, Replay(workers, word + front), l, i);
    }
  }

  lemma LedStands(workers: nat, q: Pool, l: Lease, i: nat)
    requires |q.past| == workers && q.at.Keys == q.before.Keys && i in q.at && l != Take(i)
    requires forall k :: 0 <= k < |q.queue| ==> q.queue[k] < workers
    requires forall j :: j in q.at ==> q.at[j] < workers
    ensures var r := Led(workers, q, l); i in r.at && r.at[i] == q.at[i] && r.before[i] == q.before[i]
  {
  }

  /** Where and whom a mutant found is what some order lets it find. */
  lemma {:induction false} FoundFollows(workers: nat, n: nat, word: seq<Lease>, i: nat)
    requires IsOrder(workers, n, word) && i in Replay(workers, word).at
    ensures var q := Replay(workers, word); CanFollow(workers, n, i, q.at[i], q.before[i])
  {
    var front, l := word[..|word| - 1], word[|word| - 1];
    assert word == front + [l];
    OrderMore(workers, n, front, l);
    if l == Take(i) && Replay(workers, front).queue != [] {
      var q := Replay(workers, front);
      assert Follows(workers, n, front, i, q.queue[0], q.past[q.queue[0]]);
    } else {
      FoundFollows(workers, n, front, i);
    }
  }

  /** A complete undisturbed run. */
  ghost predicate Complete(c: Config, es: seq<Event>, s': State) {
    IsRun(c, Init(c), es, s') && Undisturbed(es) && |s'.tasks| == |c.mutants| && AllDone(s')
  }

  /** The outcome of a complete undisturbed run, by the order of its leases. */
  lemma OutcomeByOrder(c: Config, es: seq<Event>, s': State, i: nat)
    requires c.Valid() && Complete(c, es, s') && i < |c.mutants|
    ensures IsOrder(c.workers, |c.mutants|, WordOf(es))
    ensures var q := Replay(c.workers, WordOf(es));
            i in q.at && i in q.before && s'.tasks[i].outcome == OutcomeOn(c, i, LeftBy(c, q.at[i], q.before[i]))
  {
    LinkedStart(c);
    var p := RunTracks(c, Init(c), es, s', [], 0);
    assert [] + WordOf(es) == WordOf(es);
    assert TaskStored(c, s', Replay(c.workers, WordOf(es)), i);
  }

  /** Mutant `i` has this outcome in some complete undisturbed run. */
  ghost predicate Happens(c: Config, i: nat, o: Outcome)
    requires i < |c.mutants|
  {
    exists es, s' :: Complete(c, es, s') && s'.tasks[i].outcome == o
  }

  /** Whatever a mutant can find, it does find in some run. */
  lemma FoundHappens(c: Config, i: nat, w: nat, js: seq<nat>)
    requires c.Valid() && i < |c.mutants| && CanFollow(c.workers, |c.mutants|, i, w, js)
    ensures Happens(c, i, OutcomeOn(c, i, LeftBy(c, w, js)))
  {
    var word :| Follows(c.workers, |c.mutants|, word, i, w, js);
    OrderMore(c.workers, |c.mutants|, word, Take(i));
    var es, s', more := RunsThrough(c, word + [Take(i)]);
    OutcomeByOrder(c, es, s', i);
    assert Take(i) in word + [Take(i)];
    FoundStands(c.workers, |c.mutants|, word + [Take(i)], more, i);
  }

  /** Every order of leases begins the word of a complete undisturbed run. */
  lemma RunsThrough(c: Config, word: seq<Lease>) returns (es: seq<Event>, s': State, more: seq<Lease>)
    requires c.Valid() && IsOrder(c.workers, |c.mutants|, word)
    ensures Complete(c, es, s') && WordOf(es) == word + more
  {
    var s, p := OrderRuns(c, word);
    ReachesInv(c, s, word, p);
    var rest;
    rest, s' := Completes(c, s);
    var p' := ReachesRun(c, s, rest, s', word, p);
    more := WordOf(rest);
    es :| Spells(c, es, s', word + more);
  }

  /** Over every schedule without a time-out or an exception, a mutant's outcome is the one it has by itself if
      and only if its verdict is the same after everything that can come before it in its workspace. */
  lemma ParallelIsSequential(c: Config, i: nat)
    requires c.Valid() && i < |c.mutants|
    ensures (forall es, s' :: Complete(c, es, s') ==> s'.tasks[i].outcome == AloneOutcome(c, i)) <==> Settled(c, i)
  {
    if Settled(c, i) {
      forall es, s' | Complete(c, es, s') ensures s'.tasks[i].outcome == AloneOutcome(c, i) {
        OutcomeByOrder(c, es, s', i);
        FoundFollows(c.workers, |c.mutants|, WordOf(es), i);
      }
    }
    if forall es, s' :: Complete(c, es, s') ==> s'.tasks[i].outcome == AloneOutcome(c, i) {
      forall w, js | CanFollow(c.workers, |c.mutants|, i, w, js)
        ensures JudgeOf(c, i, LeftBy(c, w, js)) == JudgeOf(c, i, {})
      {
        FoundHappens(c, i, w, js);
      }
    }
  }

  // ----- first in, first out -----

  /** The workspaces given back, in order. */
  function Returned(workers: nat, word: seq<Lease>): seq<nat> {
    if word == [] then []
    else
      var front, l := word[..|word| - 1], word[|word| - 1];
      var q := Replay(workers, front);
      Returned(workers, front) + if l.Give? && l.i in q.at then [q.at[l.i]] else []
  }

  /** All the workspaces there were to take: each once, and then as they came back. */
  function Supply(workers: nat, word: seq<Lease>): seq<nat> {
    seq(workers, w => w) + Returned(workers, word)
  }

  /** The queue is what is left of the supply after the takes, so each take gets the workspace that has waited
      longest. */
  lemma {:induction false} LongestWaiting(workers: nat, n: nat, word: seq<Lease>)
    requires IsOrder(workers, n, word)
    ensures Taken(word) <= |Supply(workers, word)|
    ensures Replay(workers, word).queue == Supply(workers, word)[Taken(word)..]
    ensures |Returned(workers, word)| == Given(word)
    ensures forall i :: Take(i) in word ==> i in Replay(workers, word).at
  {
    if word == [] {
      assert Supply(workers, word) == seq(workers, w => w);
    } else {
      var front, l := word[..|word| - 1], word[|word| - 1];
      assert word == front + [l];
      LongestWaiting(workers, n, front);
      var supply, t := Supply(workers, front), Taken(front);
      if l.Take? {
        assert Returned(workers, word) == Returned(workers, front);
        assert supply[t..][1..] == supply[t + 1..];
      } else {
        assert Take(l.i) in front;
        assert Supply(workers, word) == supply + [Replay(workers, front).at[l.i]];
        assert (supply + [Replay(workers, front).at[l.i]])[t..] == supply[t..] + [Replay(workers, front).at[l.i]];
      }
    }
  }

  // ----- what can come before a mutant -----

  /** The first `n` numbers. */
  function Upto(n: nat): (r: seq<nat>)
    ensures |r| == n && forall k :: 0 <= k < n ==> r[k] == k
  {
    seq(n, k => k)
  }

  function Takes(m: nat): seq<Lease> {
    if m == 0 then [] else Takes(m - 1) + [Take(m - 1)]
  }

  datatype Tally = Tally(taken: nat, given: nat)

  /** The first `taken` mutants took a workspace and the first `given` gave theirs back, and no other. */
  ghost predicate Counted(word: seq<Lease>, tally: Tally) {
    match tally
    case Tally(t, g) =>
      && Taken(word) == t && Given(word) == g
      && (forall i: nat :: Take(i) in word <==> i < t) && (forall i: nat :: Give(i) in word <==> i < g)
  }

  lemma CountedTake(word: seq<Lease>, t: nat, g: nat)
    requires Counted(word, Tally(t, g))
    ensures Counted(word + [Take(t)], Tally(t + 1, g))
  {
    CountMore(word, Take(t));
    forall i: nat ensures (Take(i) in word + [Take(t)] <==> i < t + 1) && (Give(i) in word + [Take(t)] <==> i < g) {
      assert Take(i) in word <==> i < t;
      assert Give(i) in word <==> i < g;
    }
  }

  lemma CountedGive(word: seq<Lease>, t: nat, g: nat)
    requires Counted(word, Tally(t, g))
    ensures Counted(word + [Give(g)], Tally(t, g + 1))
  {
    CountMore(word, Give(g));
    forall i: nat ensures (Take(i) in word + [Give(g)] <==> i < t) && (Give(i) in word + [Give(g)] <==> i < g + 1) {
      assert Take(i) in word <==> i < t;
      assert Give(i) in word <==> i < g;
    }
  }

  /** The first `m` mutants hold the first `m` workspaces. */
  ghost predicate FirstHeld(workers: nat, q: Pool, m: nat) {
    match q
    case Pool(queue, past, at, _) =>
      && |past| == workers && |queue| == workers - m && (forall k :: 0 <= k < |queue| ==> queue[k] == m + k)
      && (forall w: nat :: w < workers ==> past[w] == if w < m then [w] else [])
      && forall i: nat :: i < m ==> i in at && at[i] == i
  }

  lemma {:induction false} FirstTakes(workers: nat, n: nat, m: nat)
    requires m <= workers && m <= n
    ensures IsOrder(workers, n, Takes(m)) && Counted(Takes(m), Tally(m, 0))
  {
    if m > 0 {
      FirstTakes(workers, n, m - 1);
      FirstMay(workers, n, Takes(m - 1), m - 1);
      CountedTake(Takes(m - 1), m - 1, 0);
      OrderMore(workers, n, Takes(m - 1), Take(m - 1));
    }
  }

  lemma FirstMay(workers: nat, n: nat, word: seq<Lease>, m: nat)
    requires Counted(word, Tally(m, 0)) && m < workers && m < n
    ensures MayFollow(workers, n, word, Take(m))
  {
  }

  lemma {:induction false} FirstHolds(workers: nat, m: nat)
    requires m <= workers
    ensures FirstHeld(workers, Replay(workers, Takes(m)), m)
  {
    if m > 0 {
      FirstHolds(workers, m - 1);
      ReplayMore(workers, Takes(m - 1), Take(m - 1));
      HeldMore(workers, Replay(workers, Takes(m - 1)), m - 1);
    }
  }

  lemma HeldMore(workers: nat, q: Pool, m: nat)
    requires FirstHeld(workers, q, m) && m < workers && q.at.Keys == q.before.Keys
    requires forall i :: i in q.at ==> q.at[i] < workers
    ensures FirstHeld(workers, Led(workers, q, Take(m)), m + 1)
  {
  }

  /** With more mutants than workspaces, the next mutant can find any workspace after the first that had it. */
  lemma NextFindsAny(workers: nat, n: nat, w: nat)
    requires w < workers < n
    ensures CanFollow(workers, n, workers, w, [w])
  {
    FirstGives(workers, n, w);
    FirstReturned(workers, w);
    assert Follows(workers, n, Takes(workers) + [Give(w)], workers, w, [w]);
  }

  lemma FirstGives(workers: nat, n: nat, w: nat)
    requires w < workers < n
    ensures var word := Takes(workers) + [Give(w)];
            IsOrder(workers, n, word) && MayFollow(workers, n, word, Take(workers))
  {
    var word := Takes(workers);
    FirstTakes(workers, n, workers);
    CountMore(word, Give(w));
    OrderMore(workers, n, word, Give(w));
    assert Take(w) in word && Give(w) !in word && Take(workers) !in word;
  }

  lemma FirstReturned(workers: nat, w: nat)
    requires w < workers
    ensures var q := Replay(workers, Takes(workers) + [Give(w)]); q.queue == [w] && q.past[w] == [w]
  {
    FirstHolds(workers, workers);
    ReplayMore(workers, Takes(workers), Give(w));
  }

  /** Two schedules that give a mutant different outcomes: whenever the first mutants of two workspaces leave
      stores on which the next one's tests disagree. */
  lemma SchedulesDiffer(c: Config, v: nat, w: nat)
    requires c.Valid() && v < c.workers && w < c.workers < |c.mutants|
    requires JudgeOf(c, c.workers, LeftBy(c, v, [v])) != JudgeOf(c, c.workers, LeftBy(c, w, [w]))
    ensures exists a, b :: a != b && Happens(c, c.workers, a) && Happens(c, c.workers, b)
  {
    NextFindsAny(c.workers, |c.mutants|, v);
    NextFindsAny(c.workers, |c.mutants|, w);
    FoundHappens(c, c.workers, v, [v]);
    FoundHappens(c, c.workers, w, [w]);
    assert OutcomeOn(c, c.workers, LeftBy(c, v, [v])) != OutcomeOn(c, c.workers, LeftBy(c, w, [w]));
  }

  /** Tests that keep an example when they see "a", and fail on "c" when they find it. */
  function ExampleJudge(file: string, seen: seq<Package>, store: Store): Option<string> {
    if seen == [map["f" := "c"]] && "example" in store then Some("test") else None
  }

  function ExampleLeave(file: string, seen: seq<Package>, store: Store): Store {
    if seen == [map["f" := "a"]] then store + {"example"} else store
  }

  const KEEPS_AN_EXAMPLE := Config(map["f" := "original"],
                                   [Mutant("f", "a", 1), Mutant("f", "b", 1), Mutant("f", "c", 1)],
                                   2, [], Tests(ExampleJudge, ExampleLeave))

  lemma ExampleReads(i: nat)
    requires i < 3
    ensures var c := KEEPS_AN_EXAMPLE;
            seq(c.mutants[i].looks, _ => Alone(c, i))
              == [map["f" := if i == 0 then "a" else if i == 1 then "b" else "c"]]
  {
    var c := KEEPS_AN_EXAMPLE;
    assert Alone(c, i) == map["f" := c.mutants[i].source];
  }

  lemma ExampleStore(i: nat)
    requires i < 2
    ensures LeftBy(KEEPS_AN_EXAMPLE, i, [i]) == if i == 0 then {"example"} else {}
  {
    var a: Package := map["f" := "a"];
    var b: Package := map["f" := "b"];
    ExampleReads(i);
    assert a["f"] != b["f"] && [a][0] != [b][0];
    assert [i][..0] == [];
  }

  /** The third mutant survives by itself, survives after the second in workspace 1, and is killed after the
      first in workspace 0. */
  lemma KilledByAnother()
    ensures var c := KEEPS_AN_EXAMPLE;
            && c.Valid() && AloneOutcome(c, 2).killedBy == None
            && (exists o :: Happens(c, 2, o) && o.Verdict? && o.killedBy == Some("test"))
            && (exists o :: Happens(c, 2, o) && o.Verdict? && o.killedBy == None)
  {
    var c := KEEPS_AN_EXAMPLE;
    NextFindsAny(2, 3, 0);
    NextFindsAny(2, 3, 1);
    FoundHappens(c, 2, 0, [0]);
    FoundHappens(c, 2, 1, [1]);
    ExampleReads(2);
    ExampleStore(0);
    ExampleStore(1);
    assert OutcomeOn(c, 2, LeftBy(c, 0, [0])).killedBy == Some("test");
    assert OutcomeOn(c, 2, LeftBy(c, 1, [1])).killedBy == None;
  }

  // With no more mutants than workspaces, and with one workspace.

  ghost function TakenIn(word: seq<Lease>): set<nat> {
    set l | l in word && l.Take? :: l.i
  }

  lemma {:induction false} TakenBound(workers: nat, n: nat, word: seq<Lease>)
    requires IsOrder(workers, n, word)
    ensures Taken(word) == |TakenIn(word)| <= n && forall i :: i in TakenIn(word) ==> i < n
  {
    if word != [] {
      var front, l := word[..|word| - 1], word[|word| - 1];
      TakenBound(workers, n, front);
      assert word == front + [l];
      assert TakenIn(word) == if l.Take? then TakenIn(front) + {l.i} else TakenIn(front);
      BelowAll(n);
      Fewer(TakenIn(word), Below(n));
    }
  }

  /** Until every workspace has been taken once, the queue begins with the ones that have not. */
  ghost predicate Untouched(workers: nat, word: seq<Lease>) {
    var q, m := Replay(workers, word), Taken(word);
    m <= workers ==>
      && workers - m <= |q.queue| && (forall k :: 0 <= k < workers - m ==> q.queue[k] == m + k)
      && forall w: nat :: m <= w < workers ==> q.past[w] == []
  }

  lemma {:induction false} UntouchedFirst(workers: nat, n: nat, word: seq<Lease>)
    requires IsOrder(workers, n, word)
    ensures Untouched(workers, word)
  {
    if word != [] {
      var front, l := word[..|word| - 1], word[|word| - 1];
      UntouchedFirst(workers, n, front);
      assert word == front + [l];
      CountMore(front, l);
      OrderMore(workers, n, front, l);
    }
  }

  /** With no more mutants than workspaces nothing is shared but the control runs' store: every schedule
      gives mutant `i` its own outcome if and only if its verdict is the same on that. */
  lemma FewMutants(c: Config, i: nat)
    requires c.Valid() && i < |c.mutants| <= c.workers
    ensures Settled(c, i) <==> JudgeOf(c, i, Start(c, 0)) == JudgeOf(c, i, {})
  {
    var k, n := c.workers, |c.mutants|;
    assert Follows(k, n, [], i, 0, []);
    forall w, js | CanFollow(k, n, i, w, js) ensures js == [] {
      var word :| Follows(k, n, word, i, w, js);
      OrderMore(k, n, word, Take(i));
      CountMore(word, Take(i));
      TakenBound(k, n, word + [Take(i)]);
      UntouchedFirst(k, n, word);
    }
    assert LeftBy(c, 0, []) == Start(c, 0);
  }

  /** With one workspace: mutants take it in order, each after all before it. */
  ghost predicate InTurn(q: Pool, m: nat, g: nat) {
    && g <= m <= g + 1 && |q.past| == 1 && q.past[0] == Upto(m) && q.queue == (if m == g then [0] else [])
    && forall i: nat :: i < m ==> i in q.at && q.at[i] == 0
  }

  lemma TurnTaken(q: Pool, m: nat)
    requires InTurn(q, m, m) && q.at.Keys == q.before.Keys && forall i :: i in q.at ==> q.at[i] < 1
    ensures InTurn(Led(1, q, Take(m)), m + 1, m)
  {
    assert Upto(m) + [m] == Upto(m + 1);
  }

  lemma TurnGiven(q: Pool, g: nat)
    requires InTurn(q, g + 1, g) && q.at.Keys == q.before.Keys && forall i :: i in q.at ==> q.at[i] < 1
    ensures InTurn(Led(1, q, Give(g)), g + 1, g + 1)
  {
  }

  lemma {:induction false} OnlyTurn(n: nat, word: seq<Lease>, t: nat, g: nat, l: Lease)
    requires Counted(word, Tally(t, g)) && g <= t <= g + 1 && MayFollow(1, n, word, l)
    ensures if t == g then l == Take(t) else l == Give(g)
  {
    if l.Give? {
      assert l.i < t && l.i >= g;
    } else {
      assert l.i >= t;
    }
  }

  lemma {:induction false} OneInTurn(n: nat, word: seq<Lease>)
    requires IsOrder(1, n, word)
    ensures Counted(word, Tally(Taken(word), Given(word))) && InTurn(Replay(1, word), Taken(word), Given(word))
  {
    if word == [] {
      assert Upto(0) == [];
    } else {
      var front, l := word[..|word| - 1], word[|word| - 1];
      var t, g := Taken(front), Given(front);
      OneInTurn(n, front);
      OrderMore(1, n, front, l);
      assert word == front + [l];
      OnlyTurn(n, front, t, g, l);
      CountMore(front, l);
      if l.Take? {
        CountedTake(front, t, g);
        TurnTaken(Replay(1, front), t);
      } else {
        CountedGive(front, t, g);
        TurnGiven(Replay(1, front), g);
      }
    }
  }

  function Turns(m: nat): seq<Lease> {
    if m == 0 then [] else Turns(m - 1) + [Take(m - 1)] + [Give(m - 1)]
  }

  /** `m` mutants have taken turns. */
  ghost predicate TurnsTaken(n: nat, word: seq<Lease>, turns: Tally) {
    match turns
    case Tally(_, _) => IsOrder(1, n, word) && Counted(word, turns)
  }

  lemma {:induction false} TurnsAre(n: nat, m: nat)
    requires m <= n
    ensures TurnsTaken(n, Turns(m), Tally(m, m))
  {
    if m > 0 {
      TurnsAre(n, m - 1);
      TurnTakes(n, Turns(m - 1), m - 1);
      TurnGives(n, Turns(m - 1) + [Take(m - 1)], m - 1);
    }
  }

  lemma {:induction false} TurnTakes(n: nat, word: seq<Lease>, m: nat)
    requires m < n && TurnsTaken(n, word, Tally(m, m))
    ensures TurnsTaken(n, word + [Take(m)], Tally(m + 1, m))
  {
    CountedTake(word, m, m);
    OrderMore(1, n, word, Take(m));
  }

  lemma {:induction false} TurnGives(n: nat, word: seq<Lease>, m: nat)
    requires m < n && TurnsTaken(n, word, Tally(m + 1, m))
    ensures TurnsTaken(n, word + [Give(m)], Tally(m + 1, m + 1))
  {
    CountedGive(word, m + 1, m);
    assert Take(m) in word && Give(m) !in word;
    OrderMore(1, n, word, Give(m));
  }

  /** So one worker's mutant can find exactly what all the mutants before it left, in their order. */
  lemma OneWorker(n: nat, i: nat, w: nat, js: seq<nat>)
    ensures CanFollow(1, n, i, w, js) <==> i < n && w == 0 && js == Upto(i)
  {
    if CanFollow(1, n, i, w, js) {
      var word :| Follows(1, n, word, i, w, js);
      OneInTurn(n, word);
    }
    if i < n {
      TurnsAre(n, i);
      OneInTurn(n, Turns(i));
      assert Follows(1, n, Turns(i), i, 0, Upto(i));
    }
  }
}
