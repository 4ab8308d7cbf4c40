/** What runs of the plan life cycle can and cannot come to: at most one pending plan a position, and the exact
    conditions under which an exit by click is sent twice over, a closed one reopens, and an add goes out on
    a closed position. Each failing state is reached from the initial one. */
module PlanRuns {
  import opened PlanLifecycle

  ghost predicate Leads(s: State, s': State) {
    exists steps :: IsRun(s, steps) && After(s, steps) == s'
  }

  lemma LeadsNowhere(s: State)
    ensures Leads(s, s)
  {
    assert IsRun(s, []) && After(s, []) == s;
  }

  lemma LeadsStep(s: State, t: Step, s': State)
    requires Enabled(s, t) && Leads(Apply(s, t), s')
    ensures Leads(s, s')
  {
    var rest :| IsRun(Apply(s, t), rest) && After(Apply(s, t), rest) == s';
    assert ([t] + rest)[1..] == rest;
    assert IsRun(s, [t] + rest) && After(s, [t] + rest) == s';
  }

  lemma {:induction false} RunsJoin(s: State, a: seq<Step>, b: seq<Step>)
    requires IsRun(s, a) && IsRun(After(s, a), b)
    ensures IsRun(s, a + b) && After(s, a + b) == After(After(s, a), b)
    decreases |a|
  {
    if a == [] {
      assert a + b == b;
    } else {
      RunsJoin(Apply(s, a[0]), a[1..], b);
      assert (a + b)[1..] == a[1..] + b && (a + b)[0] == a[0] && a + b != [];
    }
  }

  lemma LeadsTrans(a: State, b: State, c: State)
    requires Leads(a, b) && Leads(b, c)
    ensures Leads(a, c)
  {
    var first :| IsRun(a, first) && After(a, first) == b;
    var second :| IsRun(b, second) && After(b, second) == c;
    RunsJoin(a, first, second);
  }

  // ----- one pending plan a position -----

  /** Every plan but an entry is raised on a position, with its entry's structure; only a spread's exit waits for
      a click, only a future rolls. */
  predicate Grounded(s: State, id: Id) {
    id in s.plans &&
    var p := s.plans[id];
    match KindOf(id)
    case Entry => !p.byClick
    case Add => !p.byClick && OnEntry(s, id.n, p)
    case Exit => OnEntry(s, id.n, p) && (p.byClick ==> p.structure == Spread)
    case Roll => !p.byClick && OnEntry(s, id.n, p) && p.structure == Future
  }

  predicate OnEntry(s: State, n: nat, p: Plan) {
    n in s.positions && EntryId(n) in s.plans && p.structure == s.plans[EntryId(n)].structure
  }

  /** A position was opened by its entry's winner, which has nothing left but its own plan's status. */
  predicate Opened(s: State, n: nat) {
    && EntryId(n) in s.plans && EntryId(n) in s.winner && s.winner[EntryId(n)] < |s.requests|
    && var pc := s.requests[s.winner[EntryId(n)]].pc; pc == Closing || pc == Done
  }

  ghost predicate AllGrounded(s: State) {
    && (forall id :: id in s.plans ==> Grounded(s, id))
    && (forall n: nat :: n in s.positions ==> Opened(s, n))
    && forall n: nat :: n in s.seen ==> n in s.positions
  }

  ghost predicate OnePending(s: State) {
    forall a, b :: a in s.plans && b in s.plans && Pends(a, s.plans[a]) && Pends(b, s.plans[b]) && a.n == b.n ==> a == b
  }

  /** What no step changes of a plan that is there; only a raise makes one. */
  predicate SamePlan(p: Plan, p': Plan) { p' == p.(status := p'.status) }

  ghost predicate SamePlans(s: State, s': State) {
    s'.plans.Keys == s.plans.Keys && forall id :: id in s.plans ==> SamePlan(s.plans[id], s'.plans[id])
  }

  lemma PutSame(s: State, s': State, id: Id, status: Status, onlyFrom: set<Status>)
    requires s'.plans == Put(s, id, status, onlyFrom).plans
    ensures SamePlans(s, s')
  {
  }

  lemma ConcludeSame(s: State, who: Who, full: bool)
    requires Enabled(s, Conclude(who, full))
    ensures SamePlans(s, Apply(s, Conclude(who, full)))
  {
    var id, s' := PlanOf(s, who), ConcludeOf(s, who, full);
    match KindOf(id)
    case Entry => if !full { PutSame(s, s', id, Abandoned, {}); }
    case Add => PutSame(s, s', id, if full then Open else Abandoned, {});
    case Exit =>
    case Roll => PutSame(s, s', id, if full then Open else Abandoned, {});
  }

  lemma Conclude2Same(s: State, who: Who)
    requires Enabled(s, Conclude2(who))
    ensures SamePlans(s, Apply(s, Conclude2(who)))
  {
  }

  lemma WorkSame(s: State, t: Step)
    requires Enabled(s, t) && Works(t)
    ensures SamePlans(s, Apply(s, t))
  {
    match t
    case Mark(who) => PutSame(s, Apply(s, t), PlanOf(s, who), Filling, {});
    case MarkEntry(who) =>
    case Conclude(who, full) => ConcludeSame(s, who, full);
    case Conclude2(who) => Conclude2Same(s, who);
    case Conclude3(who) =>
    case Send(who) =>
    case Stop(who) =>
  }

  lemma AsideSame(s: State, t: Step)
    requires Enabled(s, t) && !Works(t) && !t.Raise?
    ensures SamePlans(s, Apply(s, t))
  {
  }

  lemma PlansStand(s: State, t: Step, id: Id)
    requires Enabled(s, t) && id in s.plans
    ensures id in Apply(s, t).plans && SamePlan(s.plans[id], Apply(s, t).plans[id])
  {
    if Works(t) {
      WorkSame(s, t);
    } else if !t.Raise? {
      AsideSame(s, t);
    }
  }

  lemma NewPlan(s: State, t: Step, id: Id)
    requires Enabled(s, t) && id !in s.plans && id in Apply(s, t).plans
    ensures t.Raise? && t.id == id && Apply(s, t).plans == s.plans[id := t.plan] && Raisable(s, id, t.plan)
  {
    if Works(t) {
      WorkSame(s, t);
    } else if !t.Raise? {
      AsideSame(s, t);
    }
  }

  lemma CasPositions(s: State, c: nat)
    requires Enabled(s, Cas(c))
    ensures Apply(s, Cas(c)).positions == s.positions
  {
  }

  lemma MarkPositions(s: State, t: Step)
    requires Enabled(s, t) && (t.Mark? || t.MarkEntry? || t.Stop? || t.Conclude3?)
    ensures Apply(s, t).positions == s.positions
  {
  }

  lemma OtherPositions(s: State, t: Step)
    requires Enabled(s, t) && !t.Conclude? && !t.Conclude2?
    ensures Apply(s, t).positions == s.positions
  {
    if t.Cas? {
      CasPositions(s, t.c);
    } else if t.Mark? || t.MarkEntry? || t.Stop? || t.Conclude3? {
      MarkPositions(s, t);
    }
  }

  lemma ConcludePositions(s: State, who: Who, full: bool)
    requires Enabled(s, Conclude(who, full))
    ensures var id := PlanOf(s, who);
            ConcludeOf(s, who, full).positions
            == if full && KindOf(id) == Entry then s.positions[id.n := true]
               else if full && KindOf(id) == Exit then s.positions[id.n := false] else s.positions
  {
  }

  lemma Conclude2Positions(s: State, who: Who)
    requires Enabled(s, Conclude2(who))
    ensures var id := PlanOf(s, who);
            Apply(s, Conclude2(who)).positions == if KindOf(id) == Roll then s.positions[id.n := false] else s.positions
  {
  }

  /** A worker's step changes no request but its own, whose place it moves, and neither the clock
      nor the winners nor what the monitor has read. */
  ghost predicate OthersStand(s: State, s': State, who: Who) {
    && s'.clock == s.clock && s'.winner == s.winner && s'.seen == s.seen && |s'.requests| == |s.requests|
      && s.positions.Keys <= s'.positions.Keys
    && forall c: nat :: c < |s.requests| ==>
        s'.requests[c] == s.requests[c] || (who == Desk(c) && s'.requests[c].pc != Checked)
  }

  lemma GoStands(s: State, via: State, who: Who, pc: Pc)
    requires Present(via, who) && pc != Checked && via.requests == s.requests && via.clock == s.clock
    requires via.winner == s.winner && via.seen == s.seen && s.positions.Keys <= via.positions.Keys
    ensures OthersStand(s, Go(via, who, pc), who)
  {
  }

  lemma ConcludeStands(s: State, who: Who, full: bool)
    requires Enabled(s, Conclude(who, full))
    ensures OthersStand(s, ConcludeOf(s, who, full), who)
  {
    var id := PlanOf(s, who);
    match KindOf(id)
    case Entry =>
      if full {
        GoStands(s, s.(positions := s.positions[id.n := true]), who, Closing);
      } else {
        GoStands(s, Put(s, id, Abandoned, {}), who, Done);
      }
    case Add => GoStands(s, Put(s, id, if full then Open else Abandoned, {}), who, Done);
    case Exit =>
      if full {
        GoStands(s, s.(positions := s.positions[id.n := false]), who, Closing);
      } else {
        GoStands(s, s, who, Done);
      }
    case Roll => GoStands(s, Put(s, id, if full then Open else Abandoned, {}), who, if full then Done else Closing);
  }

  lemma WorkStands(s: State, t: Step)
    requires Enabled(s, t) && Works(t)
    ensures OthersStand(s, Apply(s, t), t.who)
  {
    match t
    case Mark(who) => GoStands(s, Put(s, PlanOf(s, who), Filling, {}), who, Marked);
    case MarkEntry(who) =>
      GoStands(s, if KindOf(PlanOf(s, who)) == Exit then Put(s, EntryId(PlanOf(s, who).n), Exiting, {Open}) else s,
               who, Sending);
    case Conclude(who, full) => ConcludeStands(s, who, full);
    case Conclude2(who) =>
      var id := PlanOf(s, who);
      if KindOf(id) == Roll {
        GoStands(s, s.(positions := s.positions[id.n := false]), who, Last);
      } else {
        GoStands(s, Put(s, id, if KindOf(id) == Exit then Closed else Open, {}), who,
                 if KindOf(id) == Exit then Last else Done);
      }
    case Conclude3(who) =>
      var id := PlanOf(s, who);
      GoStands(s, Put(s, EntryId(id.n), Closed, if KindOf(id) == Exit then {Open, Exiting} else {Open}), who, Done);
    case Send(who) =>
    case Stop(who) => GoStands(s, s, who, Done);
  }

  /** The clock runs on, a position stays in the table, and only a read makes the monitor see one. */
  lemma TimeStands(s: State, t: Step)
    requires Enabled(s, t)
    ensures Apply(s, t).clock >= s.clock && s.positions.Keys <= Apply(s, t).positions.Keys
    ensures t.Read? || Apply(s, t).seen <= s.seen
  {
    if Works(t) {
      WorkStands(s, t);
    } else {
      TimeAside(s, t);
    }
  }

  lemma TimeAside(s: State, t: Step)
    requires Enabled(s, t) && !Works(t)
    ensures Apply(s, t).clock >= s.clock && Apply(s, t).positions == s.positions
        && (t.Read? || Apply(s, t).seen <= s.seen)
  {
  }

  /** Whoever works on an exit, an add or a roll works on a position. */
  lemma WorkerGrounded(s: State, who: Who)
    requires Inv(s) && AllGrounded(s) && Present(s, who) && Working(At(s, who))
    ensures KindOf(PlanOf(s, who)) != Entry ==> PlanOf(s, who).n in s.positions
  {
    Workers(s, who);
    assert Grounded(s, PlanOf(s, who));
  }

  /** A position is new when its entry concludes; an exit or a roll only closes the one it was raised on. */
  lemma NewPosition(s: State, t: Step, n: nat)
    requires Inv(s) && AllGrounded(s) && Enabled(s, t) && n !in s.positions && n in Apply(s, t).positions
    ensures t.Conclude? && t.full && PlanOf(s, t.who) == EntryId(n)
  {
    if t.Conclude? {
      WorkerGrounded(s, t.who);
      ConcludePositions(s, t.who, t.full);
    } else if t.Conclude2? {
      WorkerGrounded(s, t.who);
      Conclude2Positions(s, t.who);
    } else {
      OtherPositions(s, t);
    }
  }

  lemma NewlyOpened(s: State, who: Who, n: nat)
    requires Inv(s) && Enabled(s, Conclude(who, true)) && PlanOf(s, who) == EntryId(n)
    ensures Opened(Apply(s, Conclude(who, true)), n)
  {
    Workers(s, who);
  }

  /** The winner of an entry whose position is open goes on to its last statement only. */
  lemma OwnerEnds(s: State, t: Step, n: nat)
    requires Inv(s) && Enabled(s, t) && Works(t) && Opened(s, n) && t.who == Desk(s.winner[EntryId(n)])
    ensures var c := s.winner[EntryId(n)]; c < |Apply(s, t).requests| && Apply(s, t).requests[c].pc == Done
  {
    OwnerLast(s, t, n);
    LastEnds(s, s.winner[EntryId(n)]);
  }

  lemma OwnerLast(s: State, t: Step, n: nat)
    requires Inv(s) && Enabled(s, t) && Works(t) && Opened(s, n) && t.who == Desk(s.winner[EntryId(n)])
    ensures t.Conclude2? && PlanOf(s, t.who) == EntryId(n)
  {
    assert PlanOk(s, EntryId(n));
  }

  lemma LastEnds(s: State, c: nat)
    requires Enabled(s, Conclude2(Desk(c))) && KindOf(PlanOf(s, Desk(c))) == Entry
    ensures var s' := Apply(s, Conclude2(Desk(c))); c < |s'.requests| && s'.requests[c].pc == Done
  {
  }

  lemma AsideOpened(s: State, t: Step, n: nat)
    requires Inv(s) && Enabled(s, t) && !Works(t) && Opened(s, n)
    ensures EntryId(n) in Apply(s, t).plans ==> Opened(Apply(s, t), n)
  {
    assert PlanOk(s, EntryId(n));
    if t.Cas? {
      CasOpened(s, t.c, n);
    }
  }

  lemma CasOpened(s: State, c: nat, n: nat)
    requires Enabled(s, Cas(c)) && Opened(s, n) && s.plans[EntryId(n)].status != Issued
    ensures EntryId(n) in Apply(s, Cas(c)).plans ==> Opened(Apply(s, Cas(c)), n)
  {
  }

  lemma StaysOpened(s: State, t: Step, n: nat)
    requires Inv(s) && Enabled(s, t) && Opened(s, n)
    ensures Opened(Apply(s, t), n)
  {
    PlansStand(s, t, EntryId(n));
    if Works(t) {
      WorkStands(s, t);
      if t.who == Desk(s.winner[EntryId(n)]) {
        OwnerEnds(s, t, n);
      }
    } else {
      AsideOpened(s, t, n);
    }
  }

  lemma GroundedPlans(s: State, t: Step, id: Id)
    requires Inv(s) && Enabled(s, t) && AllGrounded(s) && id in Apply(s, t).plans
    ensures Grounded(Apply(s, t), id)
  {
    TimeStands(s, t);
    if id in s.plans {
      PlansStand(s, t, id);
      assert Grounded(s, id);
    } else {
      NewPlan(s, t, id);
    }
    if EntryId(id.n) in s.plans {
      PlansStand(s, t, EntryId(id.n));
    }
  }

  lemma OpenedPositions(s: State, t: Step, n: nat)
    requires Inv(s) && Enabled(s, t) && AllGrounded(s) && n in Apply(s, t).positions
    ensures Opened(Apply(s, t), n)
  {
    if n in s.positions {
      StaysOpened(s, t, n);
    } else {
      NewPosition(s, t, n);
      NewlyOpened(s, t.who, n);
    }
  }

  lemma GroundedStep(s: State, t: Step)
    requires Inv(s) && Enabled(s, t) && AllGrounded(s)
    ensures AllGrounded(Apply(s, t))
  {
    var s' := Apply(s, t);
    forall id | id in s'.plans ensures Grounded(s', id) {
      GroundedPlans(s, t, id);
    }
    forall n: nat | n in s'.positions ensures Opened(s', n) {
      OpenedPositions(s, t, n);
    }
    TimeStands(s, t);
    forall n: nat | n in s'.seen ensures n in s'.positions {
    }
  }

  predicate IsClosed(s: State, n: nat) {
    n in s.positions && !s.positions[n]
  }

  /** A closed position stays closed. */
  lemma StaysClosed(s: State, t: Step, n: nat)
    requires Inv(s) && AllGrounded(s) && Enabled(s, t) && IsClosed(s, n)
    ensures IsClosed(Apply(s, t), n)
  {
    if t.Conclude? {
      ClosedConcluded(s, t.who, t.full, n);
    } else if t.Conclude2? {
      Conclude2Positions(s, t.who);
    } else {
      OtherPositions(s, t);
    }
  }

  lemma ClosedConcluded(s: State, who: Who, full: bool, n: nat)
    requires Inv(s) && AllGrounded(s) && Enabled(s, Conclude(who, full)) && IsClosed(s, n)
    ensures IsClosed(Apply(s, Conclude(who, full)), n)
  {
    ConcludePositions(s, who, full);
    NotConcluding(s, who, n);
  }

  /** No one has an open or closed position's entry still to conclude. */
  lemma NotConcluding(s: State, who: Who, n: nat)
    requires Inv(s) && AllGrounded(s) && Present(s, who) && At(s, who) == Sending && n in s.positions
    ensures PlanOf(s, who) != EntryId(n)
  {
    Workers(s, who);
    assert Opened(s, n);
  }

  /** Only a raise makes a plan the monitor alone sends pending. */
  lemma StillPending(s: State, t: Step, id: Id)
    requires Inv(s) && Enabled(s, t) && id in s.plans && Unattended(s, id) && id in Apply(s, t).plans
    ensures Pends(id, Apply(s, t).plans[id]) ==> Pends(id, s.plans[id])
  {
    StatusDiagram(s, t, id);
  }

  lemma NewlyPending(s: State, t: Step, a: Id, b: Id)
    requires Inv(s) && AllGrounded(s) && Enabled(s, t) && a.n == b.n && a in Apply(s, t).plans && b in Apply(s, t).plans
    requires Pends(a, Apply(s, t).plans[a]) && Pends(b, Apply(s, t).plans[b])
    requires a !in s.plans || !Pends(a, s.plans[a])
    ensures a == b
  {
    var s' := Apply(s, t);
    GroundedStep(s, t);
    assert Grounded(s', a) && Grounded(s', b);
    if a !in s.plans {
      NewPlan(s, t, a);
    } else {
      if Unattended(s, a) {
        StillPending(s, t, a);
      }
      PlansStand(s, t, a);
    }
  }

  lemma OnePendingStep(s: State, t: Step)
    requires Inv(s) && AllGrounded(s) && OnePending(s) && Enabled(s, t)
    ensures OnePending(Apply(s, t))
  {
    var s' := Apply(s, t);
    forall a, b | a in s'.plans && b in s'.plans && Pends(a, s'.plans[a]) && Pends(b, s'.plans[b]) && a.n == b.n
      ensures a == b
    {
      if a !in s.plans || !Pends(a, s.plans[a]) {
        NewlyPending(s, t, a, b);
      } else if b !in s.plans || !Pends(b, s.plans[b]) {
        NewlyPending(s, t, b, a);
      }
    }
  }

  lemma {:induction false} GroundedRun(s: State, steps: seq<Step>)
    requires Inv(s) && AllGrounded(s) && OnePending(s) && IsRun(s, steps)
    ensures AllGrounded(After(s, steps)) && OnePending(After(s, steps))
    decreases |steps|
  {
    if steps != [] {
      StepKeeps(s, steps[0]);
      GroundedStep(s, steps[0]);
      OnePendingStep(s, steps[0]);
      GroundedRun(Apply(s, steps[0]), steps[1..]);
    }
  }

  lemma ReachableGrounded(s: State)
    requires Reachable(s)
    ensures Inv(s) && AllGrounded(s) && OnePending(s)
  {
    var steps :| IsRun(INITIAL, steps) && After(INITIAL, steps) == s;
    ReachableInv(s);
    InvInitial();
    GroundedRun(INITIAL, steps);
  }

  /** At any moment of any run a position has one pending plan at most: an exit and a roll, or two rolls, are
      never sent over one another. */
  lemma OnePendingPlan(s: State, a: Id, b: Id)
    requires Reachable(s) && a in Pending(s.order, s.plans) && b in Pending(s.order, s.plans) && a.n == b.n
    ensures a == b
  {
    ReachableGrounded(s);
    PendingIs(s.order, s.plans);
  }

  // ----- a late confirm -----

  /** Past its checks, and its plan still issued at or after its expiry. */
  predicate IsLate(s: State, c: nat) {
    && c < |s.requests| && s.requests[c].pc == Checked && !s.requests[c].click
    && s.requests[c].id in s.plans && s.plans[s.requests[c].id].status == Issued
      && s.plans[s.requests[c].id].expires <= s.clock
  }

  /** A request that passed its checks in time wins however late it gets to the compare-and-set. A sweep that
      comes first stops an entry, whose plan stays lapsed, and not an add. */
  lemma LateConfirm(s: State, c: nat)
    requires Inv(s) && IsLate(s, c)
    ensures var id := s.requests[c].id;
            && IsEntry(id) && Enabled(s, Cas(c)) && Apply(s, Cas(c)).plans[id].status == Confirmed
              && Apply(s, Cas(c)).winner[id] == c
            && var swept := Apply(s, Lapse(s.clock));
               && Enabled(swept, Cas(c))
               && Apply(swept, Cas(c)).plans[id].status == (if KindOf(id) == Entry then Lapsed else Confirmed)
               && Apply(swept, Cas(c)).requests[c].pc == if KindOf(id) == Entry then Done else Won
  {
    assert RequestOk(s, c);
  }

  // ----- an exit by click and the monitor's pass -----

  predicate BothSend(s: State, c: nat, id: Id) {
    && Present(s, Desk(c)) && At(s, Desk(c)) == Sending && PlanOf(s, Desk(c)) == id
    && Present(s, Monitor) && At(s, Monitor) == Sending && PlanOf(s, Monitor) == id
  }

  /** The monitor's pass is at `id`, which the request `c` holds. */
  ghost predicate Meeting(s: State, c: nat, id: Id) {
    match s
    case State(_, _, _, requests, todo, pc, _, _, _, _) =>
      && c < |requests| && requests[c].id == id && requests[c].click && requests[c].pc == Won && pc == Won
      && todo != [] && todo[0] == id
  }

  /** What is left of the pass has the plan the request holds at `k`. */
  ghost predicate Ahead(s: State, c: nat, id: Id, k: nat) {
    match s
    case State(_, _, _, requests, todo, pc, _, _, _, _) =>
      && c < |requests| && requests[c].id == id && requests[c].click && requests[c].pc == Won && pc == Won
      && k < |todo| && todo[k] == id
  }

  /** The add is issued and in time. */
  predicate AddWaits(s: State, n: nat) {
    AddId(n) in s.plans && s.plans[AddId(n)].status == Issued && s.clock < s.plans[AddId(n)].expires
  }

  /** The add is not raised, but the monitor has read the position, a spread, as open. */
  predicate MayRaiseAdd(s: State, n: nat) {
    AddId(n) !in s.plans && n in s.seen && EntryId(n) in s.plans && s.plans[EntryId(n)].structure == Spread
  }

  predicate AddAhead(s: State, n: nat, raised: bool) {
    if raised then AddWaits(s, n) else MayRaiseAdd(s, n)
  }

  lemma BeginsPlans(s: State, who: Who)
    requires Enabled(s, Mark(who))
    ensures var s' := Apply(Apply(s, Mark(who)), MarkEntry(who));
            && (PlanOf(s, who) in s.plans
              ==> PlanOf(s, who) in s'.plans && SamePlan(s.plans[PlanOf(s, who)], s'.plans[PlanOf(s, who)]))
            && forall n, raised :: AddAhead(s, n, raised) && PlanOf(s, who) != AddId(n) ==> AddAhead(s', n, raised)
  {
  }

  /** A worker that has its plan goes on to send. */
  lemma Begins(s: State, who: Who) returns (s': State)
    requires Enabled(s, Mark(who))
    ensures Leads(s, s') && Present(s', who) && At(s', who) == Sending && PlanOf(s', who) == PlanOf(s, who)
    ensures s'.todo == s.todo && if who.Desk? then s'.pc == s.pc else s'.requests == s.requests
    ensures s'.positions == s.positions && s'.sent == s.sent && s'.clock == s.clock
    ensures PlanOf(s, who) in s.plans
        ==> PlanOf(s, who) in s'.plans && SamePlan(s.plans[PlanOf(s, who)], s'.plans[PlanOf(s, who)])
    ensures forall n, raised :: AddAhead(s, n, raised) && PlanOf(s, who) != AddId(n) ==> AddAhead(s', n, raised)
  {
    var s1 := Apply(s, Mark(who));
    s' := Apply(s1, MarkEntry(who));
    BeginsPlans(s, who);
    LeadsNowhere(s');
    LeadsStep(s1, MarkEntry(who), s');
    LeadsStep(s, Mark(who), s');
  }

  /** The monitor gives up on the first plan of its pass, as when a quote is missing. */
  lemma PassesOver(s: State) returns (s': State)
    requires s.todo != [] && s.pc == Won
    ensures Leads(s, s') && s'.requests == s.requests && s'.todo == s.todo[1..] && s'.pc == Won
  {
    var s1 := Begins(s, Monitor);
    s' := Apply(s1, Stop(Monitor));
    LeadsNowhere(s');
    LeadsStep(s1, Stop(Monitor), s');
    LeadsTrans(s, s1, s');
  }

  lemma {:induction false} ComesTo(s: State, c: nat, id: Id, k: nat) returns (s': State)
    requires Ahead(s, c, id, k)
    ensures Leads(s, s') && Meeting(s', c, id)
    decreases k
  {
    if k == 0 {
      s' := s;
      LeadsNowhere(s);
    } else {
      var s1 := PassesOver(s);
      s' := ComesTo(s1, c, id, k - 1);
      LeadsTrans(s, s1, s');
    }
  }

  lemma BothBegin(s: State, c: nat, id: Id) returns (s': State)
    requires Meeting(s, c, id)
    ensures Leads(s, s') && BothSend(s', c, id)
  {
    var s1 := Begins(s, Desk(c));
    s' := Begins(s1, Monitor);
    LeadsTrans(s, s1, s');
  }

  /** The click wins; the monitor, perhaps restarted, takes a new snapshot, which has the plan. */
  lemma ClickWins(s: State, c: nat) returns (s': State, k: nat)
    requires Inv(s) && Enabled(s, Cas(c)) && s.requests[c].click
    requires s.requests[c].id in s.plans && s.plans[s.requests[c].id].status == Issued
    ensures Leads(s, s') && Ahead(s', c, s.requests[c].id, k)
  {
    var id := s.requests[c].id;
    assert RequestOk(s, c);
    var s1 := Apply(s, Cas(c));
    var s2 := Apply(s1, Restart);
    s' := Apply(s2, Snapshot);
    CasKeeps(s, c);
    PendingIs(s1.order, s1.plans);
    assert id in s'.todo;
    k :| 0 <= k < |s'.todo| && s'.todo[k] == id;
    LeadsNowhere(s');
    LeadsStep(s2, Snapshot, s');
    LeadsStep(s1, Restart, s');
    LeadsStep(s, Cas(c), s');
  }

  /** Every exit by click whose click is about to win can be sent by the monitor at the same time, each for
      what it read of the fill table, whatever else is pending. */
  lemma ClickAndPass(s: State, c: nat)
    requires Inv(s) && Enabled(s, Cas(c)) && s.requests[c].click
    requires s.requests[c].id in s.plans && s.plans[s.requests[c].id].status == Issued
    ensures exists s' :: Leads(s, s') && BothSend(s', c, s.requests[c].id)
  {
    var s1, k := ClickWins(s, c);
    var s2 := ComesTo(s1, c, s.requests[c].id, k);
    var s3 := BothBegin(s2, c, s.requests[c].id);
    LeadsTrans(s, s1, s2);
    LeadsTrans(s, s2, s3);
  }

  // ----- a closed exit -----

  ghost predicate ClosedClick(s: State, id: Id) {
    id in s.plans && KindOf(id) == Exit && s.plans[id].byClick && s.plans[id].status == Closed
  }

  /** A step reopens a closed exit by click exactly when it is the FILLING mark of a worker still on it: the
      desk's own request, or a pass whose snapshot is older than the close. No other step moves it. */
  lemma ReopensWhen(s: State, t: Step, id: Id)
    requires Inv(s) && Enabled(s, t) && ClosedClick(s, id)
    ensures id in Apply(s, t).plans
    ensures Apply(s, t).plans[id].status != Closed <==> t.Mark? && PlanOf(s, t.who) == id
    ensures Apply(s, t).plans[id].status != Closed ==>
              Apply(s, t).plans[id].status == Filling && id in s.winner
                && (t.who == Monitor || t.who == Desk(s.winner[id]))
  {
    PlansStand(s, t, id);
    if t.Mark? {
      ReopensByMark(s, t.who, id);
    } else if Works(t) {
      ClosedByWork(s, t, id);
    } else {
      ClosedAside(s, t, id);
    }
  }

  lemma ClosedAside(s: State, t: Step, id: Id)
    requires Enabled(s, t) && ClosedClick(s, id) && !Works(t) && id in Apply(s, t).plans
    ensures Apply(s, t).plans[id].status == Closed
  {
  }

  lemma ReopensByMark(s: State, who: Who, id: Id)
    requires Inv(s) && Enabled(s, Mark(who)) && ClosedClick(s, id) && id in Apply(s, Mark(who)).plans
    ensures Apply(s, Mark(who)).plans[id].status == if PlanOf(s, who) == id then Filling else Closed
    ensures PlanOf(s, who) == id ==> id in s.winner && (who == Monitor || who == Desk(s.winner[id]))
  {
    Workers(s, who);
  }

  lemma ClosedByWork(s: State, t: Step, id: Id)
    requires Enabled(s, t) && ClosedClick(s, id) && Works(t) && !t.Mark? && id in Apply(s, t).plans
    ensures Apply(s, t).plans[id].status == Closed
  {
    match t
    case Conclude(who, full) => ClosedConclude(s, who, full, id);
    case Conclude2(who) => ClosedConclude2(s, who, id);
    case MarkEntry(who) => ClosedPut(s, EntryId(PlanOf(s, who).n), Exiting, {Open}, id);
    case Conclude3(who) =>
      ClosedPut(s, EntryId(PlanOf(s, who).n), Closed,
                if KindOf(PlanOf(s, who)) == Exit then {Open, Exiting} else {Open}, id);
    case Send(who) =>
    case Stop(who) =>
  }

  lemma ClosedPut(s: State, other: Id, status: Status, from: set<Status>, id: Id)
    requires ClosedClick(s, id) && (other != id || status == Closed)
    ensures ClosedClick(Put(s, other, status, from), id)
  {
  }

  lemma ClosedConclude(s: State, who: Who, full: bool, id: Id)
    requires Enabled(s, Conclude(who, full)) && ClosedClick(s, id)
    ensures id in ConcludeOf(s, who, full).plans && ConcludeOf(s, who, full).plans[id].status == Closed
  {
    var mine := PlanOf(s, who);
    match KindOf(mine)
    case Entry => ClosedPut(s, mine, Abandoned, {}, id);
    case Add => ClosedPut(s, mine, if full then Open else Abandoned, {}, id);
    case Exit =>
    case Roll => ClosedPut(s, mine, if full then Open else Abandoned, {}, id);
  }

  lemma ClosedConclude2(s: State, who: Who, id: Id)
    requires Enabled(s, Conclude2(who)) && ClosedClick(s, id)
    ensures id in Apply(s, Conclude2(who)).plans && Apply(s, Conclude2(who)).plans[id].status == Closed
  {
  }

  lemma LeadsInv(s: State, s': State)
    requires Inv(s) && Leads(s, s')
    ensures Inv(s')
  {
    var steps :| IsRun(s, steps) && After(s, steps) == s';
    RunKeeps(s, steps);
  }

  /** The first two closing statements of an exit in full. */
  lemma TwoStatements(s: State, who: Who, id: Id) returns (s': State)
    requires Present(s, who) && At(s, who) == Sending && PlanOf(s, who) == id && KindOf(id) == Exit
    requires id in s.plans && s.plans[id].byClick
    ensures Leads(s, s') && ClosedClick(s', id) && IsClosed(s', id.n)
    ensures s'.todo == s.todo && if who.Desk? then s'.pc == s.pc else s'.requests == s.requests
    ensures forall raised :: AddAhead(s, id.n, raised) ==> AddAhead(s', id.n, raised)
  {
    var s1 := Apply(s, Conclude(who, true));
    s' := Apply(s1, Conclude2(who));
    LeadsNowhere(s');
    LeadsStep(s1, Conclude2(who), s');
    LeadsStep(s, Conclude(who, true), s');
  }

  /** A worker closes an exit in full, down to its own plan's CLOSED. */
  lemma Closes(s: State, who: Who, id: Id) returns (s': State)
    requires Enabled(s, Mark(who)) && PlanOf(s, who) == id && KindOf(id) == Exit && id in s.plans && s.plans[id].byClick
    ensures Leads(s, s') && ClosedClick(s', id) && IsClosed(s', id.n)
    ensures s'.todo == s.todo && if who.Desk? then s'.pc == s.pc else s'.requests == s.requests
    ensures forall raised :: AddAhead(s, id.n, raised) ==> AddAhead(s', id.n, raised)
  {
    var s1 := Begins(s, who);
    s' := TwoStatements(s1, who, id);
    LeadsTrans(s, s1, s');
  }

  lemma Meet(s: State, c: nat) returns (s': State)
    requires Inv(s) && Enabled(s, Cas(c)) && s.requests[c].click
    requires s.requests[c].id in s.plans && s.plans[s.requests[c].id].status == Issued
    ensures Leads(s, s') && Meeting(s', c, s.requests[c].id) && Inv(s')
  {
    var s1, k := ClickWins(s, c);
    s' := ComesTo(s1, c, s.requests[c].id, k);
    LeadsTrans(s, s1, s');
    LeadsInv(s, s');
  }

  lemma MeetingIs(s: State, c: nat, id: Id)
    requires Inv(s) && Meeting(s, c, id)
    ensures KindOf(id) == Exit && id in s.plans && s.plans[id].byClick
  {
    Workers(s, Desk(c));
    assert PlanOk(s, id);
  }

  /** Every click about to win has both runs ahead of it: the desk closes the exit and the monitor's pass,
      begun before, reopens it; and the monitor closes it and the desk's own request reopens it. */
  lemma BothReopen(s: State, c: nat)
    requires Inv(s) && Enabled(s, Cas(c)) && s.requests[c].click
    requires s.requests[c].id in s.plans && s.plans[s.requests[c].id].status == Issued
    ensures exists s' :: Leads(s, s') && AboutToReopen(s', Monitor, s.requests[c].id)
    ensures exists s' :: Leads(s, s') && AboutToReopen(s', Desk(c), s.requests[c].id)
  {
    var id := s.requests[c].id;
    var s1 := Meet(s, c);
    MeetingIs(s1, c, id);
    var s2 := Closes(s1, Desk(c), id);
    var s3 := Closes(s1, Monitor, id);
    LeadsTrans(s, s1, s2);
    LeadsTrans(s, s1, s3);
    assert AboutToReopen(s2, Monitor, id) && AboutToReopen(s3, Desk(c), id);
  }

  ghost predicate AboutToReopen(s: State, who: Who, id: Id) {
    Enabled(s, Mark(who)) && PlanOf(s, who) == id && ClosedClick(s, id)
  }

  // ----- an add on a closed position -----

  /** From here an order of the add goes out while its position is closed: a new row of the send log. */
  ghost predicate SendsOnClosed(s: State, n: nat) {
    exists s1, who :: Leads(s, s1) && SendsNow(s, s1, who, n)
  }

  ghost predicate SendsNow(s: State, s1: State, who: Who, n: nat) {
    && Enabled(s1, Send(who)) && IsClosed(s1, n)
    && var sent := Apply(s1, Send(who)).sent;
       |s.sent| < |sent| && sent[..|sent| - 1] == s1.sent && sent[|sent| - 1] == Order(who, AddId(n))
  }

  /** A request for the plan has passed its checks and not yet come to the compare-and-set. */
  ghost predicate Asked(s: State, id: Id) {
    exists c: nat :: c < |s.requests| && s.requests[c].id == id && s.requests[c].pc == Checked
  }

  /** The winner of the plan is at work on it. */
  predicate WinnerWorks(s: State, id: Id) {
    id in s.winner && s.winner[id] < |s.requests| && Working(s.requests[s.winner[id]].pc)
  }

  /** The add is not raised but the monitor has read the position, a spread, as open; or it is issued and either
      in time or asked for in time, or won and at work. */
  ghost predicate CanStillSend(s: State, n: nat) {
    match s
    case State(_, _, _, _, _, _, _, _, _, _) =>
      if AddId(n) !in s.plans then MayRaiseAdd(s, n)
      else
        var p := s.plans[AddId(n)];
        || (p.status == Issued && (s.clock < p.expires || Asked(s, AddId(n))))
        || ((p.status == Confirmed || p.status == Filling) && WinnerWorks(s, AddId(n)))
  }

  /** The winner, at `Won` or on its way, sends. */
  lemma WinnerSends(s: State, n: nat, c: nat)
    requires c < |s.requests| && s.requests[c].id == AddId(n) && IsClosed(s, n)
    requires s.requests[c].pc == Won || s.requests[c].pc == Marked || s.requests[c].pc == Sending
    ensures SendsOnClosed(s, n)
  {
    var who := Desk(c);
    if s.requests[c].pc == Won {
      var s1 := Begins(s, who);
      assert SendsNow(s, s1, who, n);
    } else if s.requests[c].pc == Marked {
      var s1 := Apply(s, MarkEntry(who));
      LeadsNowhere(s1);
      LeadsStep(s, MarkEntry(who), s1);
      assert SendsNow(s, s1, who, n);
    } else {
      LeadsNowhere(s);
      assert SendsNow(s, s, who, n);
    }
  }

  lemma SendsFrom(s: State, t: Step, n: nat)
    requires Enabled(s, t) && Apply(s, t).sent == s.sent && SendsOnClosed(Apply(s, t), n)
    ensures SendsOnClosed(s, n)
  {
    var s1, who :| Leads(Apply(s, t), s1) && SendsNow(Apply(s, t), s1, who, n);
    LeadsStep(s, t, s1);
    assert SendsNow(s, s1, who, n);
  }

  lemma AskedSends(s: State, n: nat, c: nat)
    requires c < |s.requests| && s.requests[c].id == AddId(n) && s.requests[c].pc == Checked
    requires AddId(n) in s.plans && s.plans[AddId(n)].status == Issued && IsClosed(s, n)
    ensures SendsOnClosed(s, n)
  {
    WinnerSends(Apply(s, Cas(c)), n, c);
    SendsFrom(s, Cas(c), n);
  }

  lemma IssuedSends(s: State, n: nat)
    requires AddId(n) in s.plans && s.plans[AddId(n)].status == Issued && s.clock < s.plans[AddId(n)].expires
    requires IsClosed(s, n)
    ensures SendsOnClosed(s, n)
  {
    var c := |s.requests|;
    var s1 := Apply(s, Post(AddId(n), false, true));
    AskedSends(Apply(s1, Check(c)), n, c);
    SendsFrom(s1, Check(c), n);
    SendsFrom(s, Post(AddId(n), false, true), n);
  }

  lemma RaisedSends(s: State, n: nat)
    requires MayRaiseAdd(s, n)
    requires IsClosed(s, n)
    ensures SendsOnClosed(s, n)
  {
    var add := Plan(Issued, s.clock + 1, false, Spread);
    IssuedSends(Apply(s, Raise(AddId(n), add)), n);
    SendsFrom(s, Raise(AddId(n), add), n);
  }

  lemma CanSends(s: State, n: nat)
    requires Inv(s) && IsClosed(s, n) && CanStillSend(s, n)
    ensures SendsOnClosed(s, n)
  {
    if AddId(n) !in s.plans {
      RaisedSends(s, n);
    } else if s.plans[AddId(n)].status == Issued {
      if s.clock < s.plans[AddId(n)].expires {
        IssuedSends(s, n);
      } else {
        var c: nat :| c < |s.requests| && s.requests[c].id == AddId(n) && s.requests[c].pc == Checked;
        AskedSends(s, n, c);
      }
    } else {
      assert PlanOk(s, AddId(n));
      WinnerSends(s, n, s.winner[AddId(n)]);
    }
  }

  /** The other half: once it cannot, it never can. */
  ghost predicate Spent(s: State, n: nat) {
    match s
    case State(_, _, _, _, _, _, _, _, _, _) => Inv(s) && AllGrounded(s) && IsClosed(s, n) && !CanStillSend(s, n)
  }

  lemma ConfirmedByCas(s: State, t: Step, id: Id)
    requires Inv(s) && Enabled(s, t) && id in s.plans && IsEntry(id) && s.plans[id].status == Issued
    requires id in Apply(s, t).plans && Apply(s, t).plans[id].status == Confirmed
    ensures Asked(s, id)
  {
    if Works(t) {
      WorkConfirmsNone(s, t, id);
    } else {
      assert t.Cas?;
    }
  }

  /** No work on a plan makes a plan confirmed. */
  ghost predicate NotConfirmed(s: State, id: Id) {
    id in s.plans && s.plans[id].status != Confirmed
  }

  lemma PutConfirmsNone(s: State, other: Id, status: Status, from: set<Status>, id: Id)
    requires NotConfirmed(s, id) && status != Confirmed
    ensures NotConfirmed(Put(s, other, status, from), id)
  {
  }

  lemma ConcludeConfirmsNone(s: State, who: Who, full: bool, id: Id)
    requires Enabled(s, Conclude(who, full)) && NotConfirmed(s, id)
    ensures NotConfirmed(ConcludeOf(s, who, full), id)
  {
    var mine := PlanOf(s, who);
    match KindOf(mine)
    case Entry => PutConfirmsNone(s, mine, Abandoned, {}, id);
    case Add => PutConfirmsNone(s, mine, if full then Open else Abandoned, {}, id);
    case Exit =>
    case Roll => PutConfirmsNone(s, mine, if full then Open else Abandoned, {}, id);
  }

  lemma WorkConfirmsNone(s: State, t: Step, id: Id)
    requires Enabled(s, t) && Works(t) && NotConfirmed(s, id)
    ensures NotConfirmed(Apply(s, t), id)
  {
    match t
    case Mark(who) => PutConfirmsNone(s, PlanOf(s, who), Filling, {}, id);
    case MarkEntry(who) => PutConfirmsNone(s, EntryId(PlanOf(s, who).n), Exiting, {Open}, id);
    case Conclude(who, full) => ConcludeConfirmsNone(s, who, full, id);
    case Conclude2(who) =>
      PutConfirmsNone(s, PlanOf(s, who), if KindOf(PlanOf(s, who)) == Exit then Closed else Open, {}, id);
    case Conclude3(who) =>
      PutConfirmsNone(s, EntryId(PlanOf(s, who).n), Closed,
                      if KindOf(PlanOf(s, who)) == Exit then {Open, Exiting} else {Open}, id);
    case Send(who) =>
    case Stop(who) =>
  }

  /** Whoever asks now passed a check in time. */
  lemma AskedInTime(s: State, t: Step, id: Id)
    requires Enabled(s, t) && IsEntry(id) && Asked(Apply(s, t), id) && !Asked(s, id)
    ensures id in s.plans && s.plans[id].status == Issued && s.clock < s.plans[id].expires
  {
    var c: nat :| c < |Apply(s, t).requests| && Apply(s, t).requests[c].id == id
      && Apply(s, t).requests[c].pc == Checked;
    if Works(t) {
      CheckedByNone(s, t, c);
    } else {
      assert t.Check? && t.c == c;
    }
  }

  lemma CheckedByNone(s: State, t: Step, c: nat)
    requires Enabled(s, t) && Works(t) && c < |Apply(s, t).requests| && Apply(s, t).requests[c].pc == Checked
    ensures c < |s.requests| && s.requests[c] == Apply(s, t).requests[c]
  {
    WorkStands(s, t);
  }

  lemma IssuedSpent(s: State, t: Step, n: nat)
    requires Spent(s, n) && Enabled(s, t) && AddId(n) in s.plans && s.plans[AddId(n)].status == Issued
    ensures !CanStillSend(Apply(s, t), n)
  {
    var id, s' := AddId(n), Apply(s, t);
    PlansStand(s, t, id);
    StatusDiagram(s, t, id);
    TimeStands(s, t);
    if s'.plans[id].status == Confirmed {
      ConfirmedByCas(s, t, id);
    }
    if Asked(s', id) {
      AskedInTime(s, t, id);
    }
  }

  lemma FillingSpent(s: State, t: Step, n: nat)
    requires Spent(s, n) && Enabled(s, t) && AddId(n) in s.plans
    requires s.plans[AddId(n)].status == Confirmed || s.plans[AddId(n)].status == Filling
    ensures !CanStillSend(Apply(s, t), n)
  {
    var id := AddId(n);
    assert PlanOk(s, id);
    assert Interrupted(s, id);
    if Works(t) {
      NotTheOwner(s, t.who, id);
    }
    InterruptedStep(s, t, id);
  }

  lemma AbsentSpent(s: State, t: Step, n: nat)
    requires Spent(s, n) && Enabled(s, t) && AddId(n) !in s.plans
    ensures !CanStillSend(Apply(s, t), n)
  {
    assert Opened(s, n);
    PlansStand(s, t, EntryId(n));
    TimeStands(s, t);
    if AddId(n) in Apply(s, t).plans {
      NewPlan(s, t, AddId(n));
    }
  }

  lemma EndedSpent(s: State, t: Step, n: nat)
    requires Inv(s) && Enabled(s, t) && AddId(n) in s.plans
    requires s.plans[AddId(n)].status != Issued && s.plans[AddId(n)].status != Confirmed
        && s.plans[AddId(n)].status != Filling
    ensures !CanStillSend(Apply(s, t), n)
  {
    assert PlanOk(s, AddId(n));
    StaysFinal(s, t, AddId(n));
  }

  lemma SpentStep(s: State, t: Step, n: nat)
    requires Spent(s, n) && Enabled(s, t)
    ensures Spent(Apply(s, t), n)
  {
    StepKeeps(s, t);
    GroundedStep(s, t);
    StaysClosed(s, t, n);
    if AddId(n) !in s.plans {
      AbsentSpent(s, t, n);
    } else if s.plans[AddId(n)].status == Issued {
      IssuedSpent(s, t, n);
    } else if s.plans[AddId(n)].status == Confirmed || s.plans[AddId(n)].status == Filling {
      FillingSpent(s, t, n);
    } else {
      EndedSpent(s, t, n);
    }
  }

  lemma {:induction false} SpentForever(s: State, steps: seq<Step>, n: nat)
    requires Spent(s, n) && IsRun(s, steps)
    ensures Spent(After(s, steps), n)
    decreases |steps|
  {
    if steps != [] {
      SpentStep(s, steps[0], n);
      SpentForever(Apply(s, steps[0]), steps[1..], n);
    }
  }

  lemma SpentIsQuiet(s: State, who: Who, n: nat)
    requires Present(s, who) && At(s, who) == Sending && Spent(s, n)
    ensures PlanOf(s, who) != AddId(n)
  {
    if PlanOf(s, who) == AddId(n) {
      Workers(s, who);
      WorkerStatus(s, who);
      assert WinnerWorks(s, AddId(n));
    }
  }

  /** On a closed position an order of the add can still go out exactly when the monitor read the position as
      open and has yet to raise the add, or the add is issued and in time or asked for in time, or is won by a
      request still at work: nothing an add's request reads says whether its position is open. */
  lemma AddOnClosedWhen(s: State, n: nat)
    requires Reachable(s) && IsClosed(s, n)
    ensures SendsOnClosed(s, n) <==> CanStillSend(s, n)
  {
    ReachableGrounded(s);
    if CanStillSend(s, n) {
      CanSends(s, n);
    } else {
      NeverSends(s, n);
    }
  }

  lemma SpentLeads(s: State, s1: State, n: nat)
    requires Spent(s, n) && Leads(s, s1)
    ensures Spent(s1, n)
  {
    var steps :| IsRun(s, steps) && After(s, steps) == s1;
    SpentForever(s, steps, n);
  }

  /** Whoever may send does not send the add. */
  ghost predicate SendsNoAdd(s: State, who: Who, n: nat) {
    Present(s, who) && At(s, who) == Sending ==> PlanOf(s, who) != AddId(n)
  }

  lemma SpentSendsNone(s: State, who: Who, n: nat)
    requires Spent(s, n)
    ensures SendsNoAdd(s, who, n)
  {
    if Present(s, who) && At(s, who) == Sending {
      SpentIsQuiet(s, who, n);
    }
  }

  lemma NotNow(s: State, s1: State, who: Who, n: nat)
    requires SendsNoAdd(s1, who, n)
    ensures !SendsNow(s, s1, who, n)
  {
  }

  lemma NeverSends(s: State, n: nat)
    requires Spent(s, n)
    ensures !SendsOnClosed(s, n)
  {
    forall s1, who | Leads(s, s1) ensures !SendsNow(s, s1, who, n) {
      SpentLeads(s, s1, n);
      SpentSendsNone(s1, who, n);
      NotNow(s, s1, who, n);
    }
  }

  // ----- the failing states are reached -----

  lemma Onward(s: State, t: Step)
    requires Reachable(s) && Enabled(s, t)
    ensures Reachable(Apply(s, t))
  {
    LeadsNowhere(Apply(s, t));
    LeadsStep(s, t, Apply(s, t));
    LeadsTrans(INITIAL, s, Apply(s, t));
  }

  /** One spread's entry plan, its one request at `pc`. */
  ghost predicate Entering(s: State, status: Status, pc: Pc) {
    match s
    case State(plans, _, _, requests, todo, _, _, _, clock, _) =>
      && plans.Keys == {EntryId(0)} && todo == [] && requests == [Request(EntryId(0), false, true, pc)]
      && plans[EntryId(0)].status == status && plans[EntryId(0)].structure == Spread
        && clock < plans[EntryId(0)].expires
  }

  lemma PostedReached() returns (s: State)
    ensures Reachable(s) && Entering(s, Issued, Start)
  {
    var p := Plan(Issued, 1, false, Spread);
    var s1 := Apply(INITIAL, Raise(EntryId(0), p));
    s := Apply(s1, Post(EntryId(0), false, true));
    LeadsNowhere(INITIAL);
    Onward(INITIAL, Raise(EntryId(0), p));
    Onward(s1, Post(EntryId(0), false, true));
  }

  lemma WonReached() returns (s: State)
    ensures Reachable(s) && Entering(s, Confirmed, Won)
  {
    var s1 := PostedReached();
    var s2 := Apply(s1, Check(0));
    s := Apply(s2, Cas(0));
    Onward(s1, Check(0));
    Onward(s2, Cas(0));
  }

  lemma SendingReached() returns (s: State)
    ensures Reachable(s) && Entering(s, Filling, Sending)
  {
    var s1 := WonReached();
    var s2 := Apply(s1, Mark(Desk(0)));
    s := Apply(s2, MarkEntry(Desk(0)));
    Onward(s1, Mark(Desk(0)));
    Onward(s2, MarkEntry(Desk(0)));
  }

  /** An interrupted entry is reached: its request stops between two orders. */
  lemma InterruptedReached()
    ensures exists s :: Reachable(s) && Interrupted(s, EntryId(0))
  {
    var s1 := SendingReached();
    var s := Apply(s1, Stop(Desk(0)));
    ReachableInv(s1);
    Workers(s1, Desk(0));
    Onward(s1, Stop(Desk(0)));
    ReachableInv(s);
    assert Interrupted(s, EntryId(0));
  }

  lemma OpenReached() returns (s: State)
    ensures Reachable(s) && Entering(s, Open, Done) && 0 in s.positions && s.positions[0]
  {
    var s1 := SendingReached();
    var s2 := Apply(s1, Conclude(Desk(0), true));
    s := Apply(s2, Conclude2(Desk(0)));
    Onward(s1, Conclude(Desk(0), true));
    Onward(s2, Conclude2(Desk(0)));
  }

  /** The monitor's tick reads the position. */
  lemma SeenReached() returns (s: State)
    ensures Reachable(s) && Entering(s, Open, Done) && 0 in s.seen && 0 in s.positions && MayRaiseAdd(s, 0)
  {
    var s1 := OpenReached();
    s := Apply(s1, Read);
    Onward(s1, Read);
  }

  lemma AddReached(raised: bool) returns (s: State)
    ensures Reachable(s) && EntryId(0) in s.plans && s.plans[EntryId(0)].structure == Spread && ExitId(0) !in s.plans
    ensures AddAhead(s, 0, raised) && |s.requests| == 1 && 0 in s.seen && Idle(s, 0)
  {
    s := SeenReached();
    if raised {
      var add := Plan(Issued, s.clock + 1, false, Spread);
      Onward(s, Raise(AddId(0), add));
      s := Apply(s, Raise(AddId(0), add));
    }
  }

  /** The position's add is still to come, and its exit by click has one request, at `pc`. */
  ghost predicate Clicking(s: State, pc: Pc, raised: bool) {
    match s
    case State(plans, _, _, requests, todo, _, _, _, _, _) =>
      && ExitId(0) in plans && plans[ExitId(0)].status == Issued && AddAhead(s, 0, raised)
      && |requests| == 2 && requests[1] == Request(ExitId(0), true, true, pc)
  }

  lemma RaisedReached(raised: bool) returns (s: State)
    ensures Reachable(s) && ExitId(0) in s.plans && s.plans[ExitId(0)].status == Issued && AddAhead(s, 0, raised)
    ensures |s.requests| == 1
  {
    var s1 := AddReached(raised);
    var exit := Plan(Issued, s1.clock + 1, true, Spread);
    s := Apply(s1, Raise(ExitId(0), exit));
    Onward(s1, Raise(ExitId(0), exit));
  }

  /** A click about to win its exit is reached, with the position's add raised or only about to be. */
  lemma ClickReached(raised: bool) returns (s: State)
    ensures Reachable(s) && Clicking(s, Checked, raised)
  {
    var s1 := RaisedReached(raised);
    var s2 := Apply(s1, Post(ExitId(0), true, true));
    s := Apply(s2, Check(1));
    Onward(s1, Post(ExitId(0), true, true));
    Onward(s2, Check(1));
  }

  /** Runs from the initial state in which a click and a pass send one exit at once, and in which each of them
      is about to reopen what the other closed. */
  lemma FailuresReached()
    ensures exists s :: Reachable(s) && BothSend(s, 1, ExitId(0))
    ensures exists s :: Reachable(s) && AboutToReopen(s, Monitor, ExitId(0))
    ensures exists s :: Reachable(s) && AboutToReopen(s, Desk(1), ExitId(0))
  {
    var s := ClickReached(true);
    ReachableInv(s);
    ClickAndPass(s, 1);
    BothReopen(s, 1);
    var s1 :| Leads(s, s1) && BothSend(s1, 1, ExitId(0));
    var s2 :| Leads(s, s2) && AboutToReopen(s2, Monitor, ExitId(0));
    var s3 :| Leads(s, s3) && AboutToReopen(s3, Desk(1), ExitId(0));
    LeadsTrans(INITIAL, s, s1);
    LeadsTrans(INITIAL, s, s2);
    LeadsTrans(INITIAL, s, s3);
  }

  /** The click wins and closes the position. */
  lemma ClosedReached(raised: bool) returns (s: State)
    ensures Reachable(s) && IsClosed(s, 0) && AddAhead(s, 0, raised)
  {
    var s1 := ClickWonReached(raised);
    s := Closes(s1, Desk(1), ExitId(0));
    LeadsTrans(INITIAL, s1, s);
  }

  lemma ClickWonReached(raised: bool) returns (s: State)
    ensures Reachable(s) && 1 < |s.requests| && s.requests[1].id == ExitId(0) && s.requests[1].pc == Won
    ensures ExitId(0) in s.plans && s.plans[ExitId(0)].byClick && AddAhead(s, 0, raised)
  {
    var s0 := ClickReached(raised);
    s := Apply(s0, Cas(1));
    Onward(s0, Cas(1));
    ReachableInv(s);
    Workers(s, Desk(1));
    assert PlanOk(s, ExitId(0));
  }

  /** Runs to a closed position whose add still goes out: one issued while it was open, and one the monitor
      raises after the desk's close, having read the position before it. */
  lemma AddOnClosedReached()
    ensures exists s, n :: Reachable(s) && IsClosed(s, n) && AddWaits(s, n) && SendsOnClosed(s, n)
    ensures exists s, n :: Reachable(s) && IsClosed(s, n) && MayRaiseAdd(s, n) && SendsOnClosed(s, n)
  {
    var s := ClosedReached(true);
    var s' := ClosedReached(false);
    assert AddWaits(s, 0) && MayRaiseAdd(s', 0);
    AddOnClosedWhen(s, 0);
    AddOnClosedWhen(s', 0);
  }

  /** A request past its checks when its plan's time runs out is reached, for an entry and for an add. */
  lemma LateReached()
    ensures exists s, c: nat :: Reachable(s) && IsLate(s, c) && KindOf(s.requests[c].id) == Entry
    ensures exists s, c: nat :: Reachable(s) && IsLate(s, c) && KindOf(s.requests[c].id) == Add
  {
    var s1 := PostedReached();
    var s2 := Expires(s1, 0);
    var s3 := AddReached(true);
    Onward(s3, Post(AddId(0), false, true));
    var s4 := Expires(Apply(s3, Post(AddId(0), false, true)), 1);
    assert IsLate(s2, 0) && IsLate(s4, 1);
  }

  lemma Expires(s: State, c: nat) returns (s': State)
    requires Reachable(s) && c < |s.requests| && s.requests[c].pc == Start && Passes(s, s.requests[c])
        && !s.requests[c].click
    ensures Reachable(s') && IsLate(s', c) && s'.requests[c].id == s.requests[c].id
  {
    var s1 := Apply(s, Check(c));
    var due := s.plans[s.requests[c].id].expires;
    s' := Apply(s1, Wait(due));
    Onward(s, Check(c));
    Onward(s1, Wait(due));
  }
}
