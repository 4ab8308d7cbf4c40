/** The life of FO plans under concurrent confirms, click exits, lapse sweeps and monitor passes
    (kite-momentum-rebalancer/app/fno_execute.py and fno_monitor.py).

    The desk and the monitor are two processes on one autocommit database, so every statement is a
    step of its own and any interleaving of steps is a run. What a broker or a quote decides is left
    to the step that is taken. */
module PlanLifecycle {

  datatype Kind = Entry | Add | Exit | Roll
  datatype Status = Issued | Confirmed | Filling | Open | Exiting | Closed | Lapsed | Rejected | Abandoned

  /** Plan ids are deterministic: the entry's own, and suffixes of it for its add, exit and rolls. */
  datatype Id = EntryId(n: nat) | AddId(n: nat) | ExitId(n: nat) | RollId(n: nat, k: nat)

  datatype Structure = Future | Spread | Condor

  datatype Plan = Plan(status: Status, expires: int, byClick: bool, structure: Structure)

  function KindOf(id: Id): Kind {
    match id
    case EntryId(_) => Entry
    case AddId(_) => Add
    case ExitId(_) => Exit
    case RollId(_, _) => Roll
  }

  /** Confirmed by `execute_entry`. */
  predicate IsEntry(id: Id) {
    KindOf(id) == Entry || KindOf(id) == Add
  }

  // ----- the plan table -----

  /** `set_status`, guarded by `only_from` unless that is empty. */
  function WithStatus(plans: map<Id, Plan>, id: Id, status: Status, onlyFrom: set<Status>): map<Id, Plan> {
    if id in plans && (onlyFrom == {} || plans[id].status in onlyFrom)
    then plans[id := plans[id].(status := status)]
    else plans
  }

  predicate Lapses(id: Id, p: Plan, now: int) {
    KindOf(id) == Entry && p.status == Issued && p.expires <= now
  }

  /** `lapse_expired`. */
  function Swept(plans: map<Id, Plan>, now: int): map<Id, Plan> {
    map id | id in plans :: if Lapses(id, plans[id], now) then plans[id].(status := Lapsed) else plans[id]
  }

  /** The sweep so far. */
  function SweptRows(plans: map<Id, Plan>, rows: seq<Id>, now: int): map<Id, Plan> {
    map id | id in plans :: if id in rows && Lapses(id, plans[id], now) then plans[id].(status := Lapsed) else plans[id]
  }

  lemma SweepRow(plans: map<Id, Plan>, rows: seq<Id>, id: Id, now: int)
    requires id in plans && id !in rows
    ensures var before := SweptRows(plans, rows, now);
            before[id] == plans[id]
            && SweptRows(plans, rows + [id], now)
               == if Lapses(id, plans[id], now) then before[id := plans[id].(status := Lapsed)] else before
  {
  }

  predicate Pends(id: Id, p: Plan) {
    || (KindOf(id) == Roll && (p.status == Issued || p.status == Confirmed || p.status == Filling))
    || (KindOf(id) == Exit && (p.status == Confirmed || p.status == Filling))
  }

  /** `pending_actions`, in row order. */
  function Pending(order: seq<Id>, plans: map<Id, Plan>): seq<Id> {
    if order == [] then []
    else
      var last := order[|order| - 1];
      Pending(order[..|order| - 1], plans) + if last in plans && Pends(last, plans[last]) then [last] else []
  }

  lemma {:induction false} PendingIs(order: seq<Id>, plans: map<Id, Plan>)
    requires forall i, j :: 0 <= i < j < |order| ==> order[i] != order[j]
    ensures var p := Pending(order, plans);
            && (forall id :: id in p <==> id in order && id in plans && Pends(id, plans[id]))
            && (forall i, j :: 0 <= i < j < |p| ==> p[i] != p[j])
  {
    if order != [] {
      var front, last := order[..|order| - 1], order[|order| - 1];
      PendingIs(front, plans);
      assert order == front + [last];
      assert last !in front;
    }
  }

  /** The `fo_plan` table. */
  class FoStore {
    var plans: map<Id, Plan>
    var order: seq<Id>

    ghost predicate Valid()
      reads this
    {
      && (forall id :: id in plans <==> id in order)
      && forall i, j :: 0 <= i < j < |order| ==> order[i] != order[j]
    }

    constructor ()
      ensures Valid() && plans == map[]
    {
      plans, order := map[], [];
    }

    /** `insert_plan`: nothing is written when the id exists. */
    method InsertPlan(id: Id, p: Plan) returns (inserted: bool)
      requires Valid()
      modifies this
      ensures Valid() && inserted == (id !in old(plans))
      ensures plans == (if id in old(plans) then old(plans) else old(plans)[id := p])
      ensures order == old(order) + if inserted then [id] else []
    {
      inserted := id !in plans;
      if inserted {
        plans := plans[id := p];
        order := order + [id];
      }
    }

    method SetStatus(id: Id, status: Status, onlyFrom: set<Status>)
      requires Valid()
      modifies `plans
      ensures Valid() && plans == WithStatus(old(plans), id, status, onlyFrom)
      ensures plans.Keys == old(plans).Keys && forall other :: other in plans ==>
                plans[other] == if other == id && (onlyFrom == {} || old(plans)[id].status in onlyFrom)
                                then old(plans)[id].(status := status) else old(plans)[other]
    {
      if id in plans && (onlyFrom == {} || plans[id].status in onlyFrom) {
        plans := plans[id := plans[id].(status := status)];
      }
    }

    /** `confirm`: the compare-and-set. It looks at the status alone. */
    method Confirm(id: Id) returns (won: bool)
      requires Valid()
      modifies `plans
      ensures Valid() && won == (id in old(plans) && old(plans)[id].status == Issued)
      ensures plans == WithStatus(old(plans), id, Confirmed, {Issued})
    {
      won := id in plans && plans[id].status == Issued;
      if won {
        plans := plans[id := plans[id].(status := Confirmed)];
      }
    }

    /** `lapse_expired`: one pass over the rows. */
    method LapseExpired(now: int) returns (lapsed: seq<Id>)
      requires Valid()
      modifies `plans
      ensures Valid() && plans == Swept(old(plans), now)
      ensures forall id :: id in lapsed <==>
                id in old(plans) && id.EntryId? && old(plans)[id].status == Issued && old(plans)[id].expires <= now
      ensures plans.Keys == old(plans).Keys && forall id :: id in plans ==>
                plans[id] == if id in lapsed then old(plans)[id].(status := Lapsed) else old(plans)[id]
    {
      lapsed := [];
      for i := 0 to |order|
        invariant plans == SweptRows(old(plans), order[..i], now)
        invariant forall id :: id in lapsed <==> id in order[..i] && Lapses(id, old(plans)[id], now)
      {
        var id := order[i];
        assert order[..i + 1] == order[..i] + [id];
        SweepRow(old(plans), order[..i], id, now);
        if Lapses(id, plans[id], now) {
          plans := plans[id := plans[id].(status := Lapsed)];
          lapsed := lapsed + [id];
        }
      }
      assert order[..|order|] == order;
    }

    method PendingActions() returns (pending: seq<Id>)
      requires Valid()
      ensures pending == Pending(order, plans)
      ensures forall id :: id in pending <==> id in plans && Pends(id, plans[id])
    {
      pending := [];
      for i := 0 to |order|
        invariant pending == Pending(order[..i], plans)
      {
        assert order[..i + 1][..i] == order[..i];
        if order[i] in plans && Pends(order[i], plans[order[i]]) {
          pending := pending + [order[i]];
        }
      }
      assert order[..|order|] == order;
      PendingIs(order, plans);
    }
  }

  /** What is pending is what may still have orders to send: an exit or a roll that has come to no end, though an
      exit still issued waits for its click. */
  lemma PendsWhen(id: Id, p: Plan)
    ensures Pends(id, p)
       <==> (id.RollId? || (id.ExitId? && p.status != Issued))
            && p.status !in {Open, Exiting, Closed, Lapsed, Rejected, Abandoned}
  {
  }

  // ----- the two processes -----

  /** Where a request, or the monitor on its current plan, stands: not begun; past its checks; holding the
      compare-and-set; its plan marked FILLING; sending; two closing statements to go; the last to go. */
  datatype Pc = Start | Checked | Won | Marked | Sending | Closing | Last | Done

  /** A post to the execute route, for an entry or add plan or, by click, for an exit. */
  datatype Request = Request(id: Id, click: bool, confirm: bool, pc: Pc)

  datatype Who = Desk(c: nat) | Monitor
  datatype Order = Order(who: Who, id: Id)

  /** `positions` says of each position whether it is open; it is named by its entry. `todo` is what is left
      of the monitor's snapshot of pending plans, at `pc` on the first. `winner` records who won each
      plan's compare-and-set, and `sent` every order; `clock` is the time; `seen` is what the monitor's tick has
      read as open. */
  datatype State = State(plans: map<Id, Plan>, order: seq<Id>, positions: map<nat, bool>, requests: seq<Request>,
                         todo: seq<Id>, pc: Pc, winner: map<Id, nat>, sent: seq<Order>, clock: int, seen: set<nat>)

  datatype Step =
    | Read                            // the monitor's tick reads the open positions
    | Raise(id: Id, plan: Plan)       // the monitor inserts a plan
    | Wait(now: int)                  // time passes
    | Lapse(now: int)                 // the monitor's sweep, at the time its tick began
    | Snapshot                        // the monitor begins a pass, its tick's raising done
    | Restart                         // the monitor dies and starts again, what it read lost
    | Post(id: Id, click: bool, confirm: bool)
    | Check(c: nat)                   // a request reads its plan
    | Refuse(c: nat)                  // no quote, or live mode
    | Cas(c: nat)                     // the compare-and-set
    | Mark(who: Who)                    // FILLING, unguarded
    | MarkEntry(who: Who)               // an exit's entry to EXITING, from OPEN only
    | Send(who: Who)
    | Stop(who: Who)                    // not filled in full, or interrupted: nothing more is written
    | Conclude(who: Who, full: bool)    // the first closing statement
    | Conclude2(who: Who)
    | Conclude3(who: Who)

  predicate Present(s: State, who: Who) {
    match who
    case Desk(c) => c < |s.requests|
    case Monitor => s.todo != []
  }

  function PlanOf(s: State, who: Who): Id
    requires Present(s, who)
  {
    match who
    case Desk(c) => s.requests[c].id
    case Monitor => s.todo[0]
  }

  function At(s: State, who: Who): Pc
    requires Present(s, who)
  {
    match who
    case Desk(c) => s.requests[c].pc
    case Monitor => s.pc
  }

  /** A request stands at `pc`; the monitor, done with a plan, goes on to the next, which needs no
      compare-and-set. */
  function Go(s: State, who: Who, pc: Pc): State
    requires Present(s, who)
  {
    match who
    case Desk(c) => s.(requests := s.requests[c := s.requests[c].(pc := pc)])
    case Monitor => if pc == Done then s.(todo := s.todo[1..], pc := Won) else s.(pc := pc)
  }

  function Put(s: State, id: Id, status: Status, onlyFrom: set<Status>): State {
    s.(plans := WithStatus(s.plans, id, status, onlyFrom))
  }

  /** No plan of the position is pending: the monitor passes over the ones that are. */
  ghost predicate Idle(s: State, n: nat) {
    forall id :: id in s.plans && Pends(id, s.plans[id]) ==> id.n != n
  }

  /** How the monitor raises each kind: an add, an exit or a roll on a position its tick has read as open
      (which may have closed between the read and the insert), with the structure of its entry; an exit or a
      roll only where nothing is pending. */
  ghost predicate Raisable(s: State, id: Id, p: Plan) {
    match KindOf(id)
    case Entry => (p.status == Issued || p.status == Rejected) && !p.byClick
    case Add => p.status == Issued && !p.byClick && On(s, id.n, p) && p.structure == Spread
    case Exit =>
      p.status == (if p.byClick then Issued else Confirmed) && On(s, id.n, p) && (p.byClick ==> p.structure == Spread)
        && Idle(s, id.n)
    case Roll => p.status == Issued && !p.byClick && On(s, id.n, p) && p.structure == Future && Idle(s, id.n)
  }

  predicate On(s: State, n: nat, p: Plan) {
    n in s.seen && EntryId(n) in s.plans && p.structure == s.plans[EntryId(n)].structure
  }

  ghost predicate Enabled(s: State, t: Step) {
    match t
    case Read => s.todo == []
    case Raise(id, p) => Raisable(s, id, p)
    case Wait(now) => now >= s.clock
    case Lapse(now) => now <= s.clock
    case Snapshot => s.todo == []
    case Restart => true
    case Post(_, _, _) => true
    case Check(c) => c < |s.requests| && s.requests[c].pc == Start
    case Refuse(c) => c < |s.requests| && s.requests[c].pc == Checked
    case Cas(c) => c < |s.requests| && s.requests[c].pc == Checked
    case Mark(who) => Present(s, who) && At(s, who) == Won
    case MarkEntry(who) => Present(s, who) && At(s, who) == Marked
    case Send(who) => Present(s, who) && At(s, who) == Sending
    case Stop(who) => Present(s, who) && At(s, who) == Sending
    case Conclude(who, _) => Present(s, who) && At(s, who) == Sending
    case Conclude2(who) => Present(s, who) && At(s, who) == Closing
    case Conclude3(who) => Present(s, who) && At(s, who) == Last
  }

  /** `_validate`, and the click exit's own checks. */
  predicate Passes(s: State, r: Request) {
    && r.confirm && r.id in s.plans && s.plans[r.id].status == Issued
    && if r.click then KindOf(r.id) == Exit else IsEntry(r.id) && s.clock < s.plans[r.id].expires
  }

  ghost function Apply(s: State, t: Step): State
    requires Enabled(s, t)
  {
    match t
    case Read => s.(seen := set n | n in s.positions && s.positions[n])
    case Raise(id, p) => if id in s.plans then s else s.(plans := s.plans[id := p], order := s.order + [id])
    case Wait(now) => s.(clock := now)
    case Lapse(now) => s.(plans := Swept(s.plans, now))
    case Snapshot => s.(todo := Pending(s.order, s.plans), pc := Won, seen := {})
    case Restart => s.(todo := [], pc := Won, seen := {})
    case Post(id, click, confirm) => s.(requests := s.requests + [Request(id, click, confirm, Start)])
    case Check(c) => Go(s, Desk(c), if Passes(s, s.requests[c]) then Checked else Done)
    case Refuse(c) => Go(s, Desk(c), Done)
    case Cas(c) =>
      var id := s.requests[c].id;
      if id in s.plans && s.plans[id].status == Issued then
        Go(Put(s, id, Confirmed, {Issued}).(winner := s.winner[id := c]), Desk(c), Won)
      else Go(s, Desk(c), Done)
    case Mark(who) => Go(Put(s, PlanOf(s, who), Filling, {}), who, Marked)
    case MarkEntry(who) =>
      var id := PlanOf(s, who);
      Go(if KindOf(id) == Exit then Put(s, EntryId(id.n), Exiting, {Open}) else s, who, Sending)
    case Send(who) => s.(sent := s.sent + [Order(who, PlanOf(s, who))])
    case Stop(who) => Go(s, who, Done)
    case Conclude(who, full) => ConcludeOf(s, who, full)
    case Conclude2(who) =>
      var id := PlanOf(s, who);
      (match KindOf(id)
       case Exit => Go(Put(s, id, Closed, {}), who, Last)
       case Roll => Go(s.(positions := s.positions[id.n := false]), who, Last)
       case _ => Go(Put(s, id, Open, {}), who, Done))
    case Conclude3(who) =>
      var id := PlanOf(s, who);
      Go(Put(s, EntryId(id.n), Closed, if KindOf(id) == Exit then {Open, Exiting} else {Open}), who, Done)
  }

  /** An entry in full opens its position first; a flat exit closes it first; everything else writes its own
      plan first. */
  function ConcludeOf(s: State, who: Who, full: bool): State
    requires Present(s, who)
  {
    var id := PlanOf(s, who);
    match KindOf(id)
    case Entry => if full then Go(s.(positions := s.positions[id.n := true]), who, Closing)
                  else Go(Put(s, id, Abandoned, {}), who, Done)
    case Add => Go(Put(s, id, if full then Open else Abandoned, {}), who, Done)
    case Exit => if full then Go(s.(positions := s.positions[id.n := false]), who, Closing) else Go(s, who, Done)
    case Roll => if full then Go(Put(s, id, Open, {}), who, Done) else Go(Put(s, id, Abandoned, {}), who, Closing)
  }

  const INITIAL := State(map[], [], map[], [], [], Won, map[], [], 0, {})

  ghost predicate IsRun(s: State, steps: seq<Step>)
    decreases |steps|
  {
    steps == [] || (Enabled(s, steps[0]) && IsRun(Apply(s, steps[0]), steps[1..]))
  }

  ghost function After(s: State, steps: seq<Step>): State
    requires IsRun(s, steps)
    decreases |steps|
  {
    if steps == [] then s else After(Apply(s, steps[0]), steps[1..])
  }

  // ----- what every step keeps -----

  /** The status of an entry or add plan whose winner stands at `pc`. */
  predicate OwnedStatus(kind: Kind, pc: Pc, status: Status) {
    match pc
    case Won => status == Confirmed
    case Marked => status == Filling
    case Sending => status == Filling
    case Closing => status == Filling && kind == Entry
    case Done => status == Filling || status == Open || status == Abandoned
      || (kind == Entry && (status == Exiting || status == Closed))
    case _ => false
  }

  /** An exit under way. */
  predicate ExitStatus(st: Status) {
    st == Confirmed || st == Filling || st == Closed
  }

  predicate Wins(s: State, c: nat, id: Id) {
    c < |s.requests| && s.requests[c].id == id && s.requests[c].confirm && s.requests[c].pc != Start
      && s.requests[c].pc != Checked
  }

  predicate PlanOk(s: State, id: Id) {
    id in s.plans &&
    var st := s.plans[id].status;
    match KindOf(id)
    case Exit =>
      if s.plans[id].byClick then
        if id in s.winner then Wins(s, s.winner[id], id) && s.requests[s.winner[id]].click && ExitStatus(st)
        else st == Issued
      else id !in s.winner && ExitStatus(st)
    case Roll =>
      id !in s.winner && !s.plans[id].byClick && (st == Issued || st == Filling || st == Open || st == Abandoned)
    case _ =>
      !s.plans[id].byClick &&
      if id in s.winner then
        Wins(s, s.winner[id], id) && !s.requests[s.winner[id]].click
          && OwnedStatus(KindOf(id), s.requests[s.winner[id]].pc, st)
      else st == Issued || st == Lapsed || st == Rejected
  }

  predicate Working(pc: Pc) {
    pc == Won || pc == Marked || pc == Sending || pc == Closing || pc == Last
  }

  predicate RequestOk(s: State, c: nat)
    requires c < |s.requests|
  {
    var r := s.requests[c];
    && (r.pc == Checked ==> r.id in s.plans && r.confirm && if r.click then KindOf(r.id) == Exit else IsEntry(r.id))
    && (Working(r.pc) ==> r.id in s.plans && r.id in s.winner && s.winner[r.id] == c)
  }

  /** A plan only the monitor sends. */
  predicate Unattended(s: State, id: Id) {
    id in s.plans && (KindOf(id) == Roll || (KindOf(id) == Exit && !s.plans[id].byClick))
  }

  /** The status of such a plan while the monitor stands at `pc` on it. */
  predicate MonitoredStatus(kind: Kind, pc: Pc, st: Status) {
    match pc
    case Won => st == Filling || st == (if kind == Roll then Issued else Confirmed)
    case Marked => st == Filling
    case Sending => st == Filling
    case Closing => st == if kind == Roll then Abandoned else Filling
    case Last => st == if kind == Roll then Abandoned else Closed
    case _ => false
  }

  predicate TodoOk(s: State, i: nat)
    requires i < |s.todo|
  {
    var id := s.todo[i];
    && id in s.plans
    && (if Unattended(s, id) then MonitoredStatus(KindOf(id), if i == 0 then s.pc else Won, s.plans[id].status)
        else KindOf(id) == Exit && id in s.winner)
  }

  /** Each order was sent by whoever may send its plan. */
  predicate SentOk(s: State, o: Order) {
    && o.id in s.plans
    && (if Unattended(s, o.id) then o.who == Monitor && !(s.plans[o.id].status == Issued)
        else o.id in s.winner && (IsEntry(o.id) ==> o.who == Desk(s.winner[o.id])))
  }

  ghost predicate TableOk(s: State) {
    && (forall id :: id in s.plans <==> id in s.order) && (forall id :: id in s.winner ==> id in s.plans)
    && (forall i, j :: 0 <= i < j < |s.order| ==> s.order[i] != s.order[j])
    && (forall i, j :: 0 <= i < j < |s.todo| ==> s.todo[i] != s.todo[j])
  }

  ghost predicate Inv(s: State) {
    match s
    case State(_, _, _, _, _, _, _, _, _, _) =>
      && TableOk(s)
      && (s.todo != [] ==> Working(s.pc))
      && (forall id :: id in s.plans ==> PlanOk(s, id))
      && (forall c: nat :: c < |s.requests| ==> RequestOk(s, c))
      && (forall i: nat :: i < |s.todo| ==> TodoOk(s, i))
      && (forall k :: 0 <= k < |s.sent| ==> SentOk(s, s.sent[k]))
  }

  lemma InvInitial()
    ensures Inv(INITIAL)
  {
  }

  // Each lemma below keeps one conjunct through one shape of step: a worker moves its own plan's status and
  // its own place, or an exit moves its entry's status.

  /** Where a worker may take its plan. */
  predicate Legal(s: State, id: Id, pc: Pc, st: Status)
    requires id in s.plans
  {
    if IsEntry(id) then OwnedStatus(KindOf(id), pc, st)
    else if Unattended(s, id) then
      if pc == Done then st == Filling || st == (if KindOf(id) == Roll then Open else Closed)
        || (KindOf(id) == Roll && st == Abandoned)
      else MonitoredStatus(KindOf(id), pc, st) && st != Issued
    else ExitStatus(st)
  }

  /** A worker's plan to a status and the worker to a place. */
  function Moved(s: State, who: Who, pc: Pc, st: Status): State
    requires Present(s, who)
  {
    Go(Put(s, PlanOf(s, who), st, {}), who, pc)
  }

  ghost predicate CanMove(s: State, who: Who, pc: Pc, st: Status) {
    && Inv(s) && Present(s, who) && Working(At(s, who)) && (Working(pc) || pc == Done)
    && PlanOf(s, who) in s.plans && Legal(s, PlanOf(s, who), pc, st)
  }

  lemma Workers(s: State, who: Who)
    requires Inv(s) && Present(s, who) && Working(At(s, who))
    ensures var id := PlanOf(s, who);
            && id in s.plans
            && (who.Desk? ==> id in s.winner && s.winner[id] == who.c && !Unattended(s, id))
            && (who.Monitor? ==> !IsEntry(id) && (!Unattended(s, id) ==> id in s.winner))
  {
    if who.Desk? {
      assert RequestOk(s, who.c) && PlanOk(s, PlanOf(s, who));
    } else {
      assert TodoOk(s, 0);
    }
  }

  /** The facts a move rests on, the invariant aside. */
  predicate Mover(s: State, who: Who, pc: Pc, st: Status) {
    match who
    case Desk(c) =>
      && c < |s.requests| && Working(s.requests[c].pc) && (Working(pc) || pc == Done)
      && var id := s.requests[c].id;
         id in s.plans && Legal(s, id, pc, st) && id in s.winner && s.winner[id] == c && !Unattended(s, id)
    case Monitor =>
      && s.todo != [] && Working(s.pc) && (Working(pc) || pc == Done)
      && var id := s.todo[0];
         id in s.plans && Legal(s, id, pc, st) && !IsEntry(id) && (!Unattended(s, id) ==> id in s.winner)
  }

  lemma CanMoveMeans(s: State, who: Who, pc: Pc, st: Status)
    requires CanMove(s, who, pc, st)
    ensures Mover(s, who, pc, st)
  {
    Workers(s, who);
  }

  lemma MovePlan(s: State, who: Who, pc: Pc, st: Status, id: Id)
    requires Mover(s, who, pc, st) && id in s.plans && PlanOk(s, id)
    ensures PlanOk(Moved(s, who, pc, st), id)
  {
  }

  lemma MoveRequest(s: State, who: Who, pc: Pc, st: Status, c: nat)
    requires Mover(s, who, pc, st) && c < |s.requests| && RequestOk(s, c)
    ensures RequestOk(Moved(s, who, pc, st), c)
  {
  }

  lemma MoveTodo(s: State, who: Who, pc: Pc, st: Status, i: nat, j: nat)
    requires Mover(s, who, pc, st) && j < |s.todo| && TodoOk(s, j) && (j > 0 ==> s.todo[j] != s.todo[0])
    requires i < |Moved(s, who, pc, st).todo| && j == if who.Monitor? && pc == Done then i + 1 else i
    ensures TodoOk(Moved(s, who, pc, st), i)
  {
    assert Moved(s, who, pc, st).todo[i] == s.todo[j];
  }

  lemma MoveSent(s: State, who: Who, pc: Pc, st: Status, o: Order)
    requires Mover(s, who, pc, st) && SentOk(s, o)
    ensures SentOk(Moved(s, who, pc, st), o)
  {
  }

  lemma MoveTable(s: State, who: Who, pc: Pc, st: Status)
    requires CanMove(s, who, pc, st)
    ensures var s' := Moved(s, who, pc, st); TableOk(s') && (s'.todo != [] ==> Working(s'.pc))
  {
  }

  lemma MoveKeeps(s: State, who: Who, pc: Pc, st: Status)
    requires CanMove(s, who, pc, st)
    ensures Inv(Moved(s, who, pc, st))
  {
    var s' := Moved(s, who, pc, st);
    CanMoveMeans(s, who, pc, st);
    MoveTable(s, who, pc, st);
    forall id | id in s'.plans ensures PlanOk(s', id) {
      MovePlan(s, who, pc, st, id);
    }
    forall c: nat | c < |s'.requests| ensures RequestOk(s', c) {
      MoveRequest(s, who, pc, st, c);
    }
    forall i: nat | i < |s'.todo| ensures TodoOk(s', i) {
      MoveTodo(s, who, pc, st, i, if who.Monitor? && pc == Done then i + 1 else i);
    }
    forall k | 0 <= k < |s'.sent| ensures SentOk(s', s'.sent[k]) {
      MoveSent(s, who, pc, st, s.sent[k]);
    }
  }

  /** A step that leaves the status. */
  lemma StayKeeps(s: State, who: Who, pc: Pc)
    requires Inv(s) && Present(s, who) && PlanOf(s, who) in s.plans
        && CanMove(s, who, pc, s.plans[PlanOf(s, who)].status)
    ensures Inv(Go(s, who, pc))
  {
    var id := PlanOf(s, who);
    var same := Put(s, id, s.plans[id].status, {});
    assert same.plans == s.plans;
    assert same == s;
    MoveKeeps(s, who, pc, s.plans[id].status);
  }

  /** An open entry has no work left of its own, so an exit or a roll may move it. */
  lemma EntryPutKeeps(s: State, n: nat, st: Status, from: set<Status>)
    requires Inv(s) && (st == Exiting || st == Closed) && (from == {Open} || from == {Open, Exiting})
    ensures Inv(Put(s, EntryId(n), st, from))
  {
    var e, s' := EntryId(n), Put(s, EntryId(n), st, from);
    if e in s.plans && s.plans[e].status in from {
      assert PlanOk(s, e);
      forall id | id in s'.plans ensures PlanOk(s', id) {
        assert PlanOk(s, id);
      }
      forall c: nat | c < |s'.requests| ensures RequestOk(s', c) {
        assert RequestOk(s, c);
      }
      forall i: nat | i < |s'.todo| ensures TodoOk(s', i) {
        assert TodoOk(s, i);
      }
      forall k | 0 <= k < |s'.sent| ensures SentOk(s', s'.sent[k]) {
        assert SentOk(s, s.sent[k]);
      }
    }
  }

  /** The invariant is about the plans, who works on them and what was sent. */
  lemma SameKeeps(s: State, s': State)
    requires Inv(s) && s' == s.(positions := s'.positions, clock := s'.clock, seen := s'.seen)
    ensures Inv(s')
  {
    forall id | id in s'.plans ensures PlanOk(s', id) {
      assert PlanOk(s, id);
    }
    forall c: nat | c < |s'.requests| ensures RequestOk(s', c) {
      assert RequestOk(s, c);
    }
    forall i: nat | i < |s'.todo| ensures TodoOk(s', i) {
      assert TodoOk(s, i);
    }
    forall k | 0 <= k < |s'.sent| ensures SentOk(s', s'.sent[k]) {
      assert SentOk(s, s.sent[k]);
    }
  }

  // ----- every step -----

  lemma RaiseKeeps(s: State, id: Id, p: Plan)
    requires Inv(s) && Enabled(s, Raise(id, p))
    ensures Inv(Apply(s, Raise(id, p)))
  {
    var s' := Apply(s, Raise(id, p));
    forall x | x in s'.plans ensures PlanOk(s', x) {
      assert x in s.plans ==> PlanOk(s, x);
    }
    forall c: nat | c < |s'.requests| ensures RequestOk(s', c) {
      assert RequestOk(s, c);
    }
    forall i: nat | i < |s'.todo| ensures TodoOk(s', i) {
      assert TodoOk(s, i);
    }
    forall k | 0 <= k < |s'.sent| ensures SentOk(s', s'.sent[k]) {
      assert SentOk(s, s.sent[k]);
    }
  }

  lemma LapseKeeps(s: State, now: int)
    requires Inv(s) && Enabled(s, Lapse(now))
    ensures Inv(Apply(s, Lapse(now)))
  {
    var s' := Apply(s, Lapse(now));
    forall x | x in s'.plans ensures PlanOk(s', x) {
      assert PlanOk(s, x);
    }
    forall c: nat | c < |s'.requests| ensures RequestOk(s', c) {
      assert RequestOk(s, c);
    }
    forall i: nat | i < |s'.todo| ensures TodoOk(s', i) {
      assert TodoOk(s, i);
    }
    forall k | 0 <= k < |s'.sent| ensures SentOk(s', s'.sent[k]) {
      assert SentOk(s, s.sent[k]);
    }
  }

  lemma SnapshotKeeps(s: State)
    requires Inv(s) && Enabled(s, Snapshot)
    ensures Inv(Apply(s, Snapshot))
  {
    PendingIs(s.order, s.plans);
    var s' := Apply(s, Snapshot);
    forall x | x in s'.plans ensures PlanOk(s', x) {
      assert PlanOk(s, x);
    }
    forall c: nat | c < |s'.requests| ensures RequestOk(s', c) {
      assert RequestOk(s, c);
    }
    forall i: nat | i < |s'.todo| ensures TodoOk(s', i) {
      assert s'.todo[i] in s'.todo && PlanOk(s, s'.todo[i]);
    }
    forall k | 0 <= k < |s'.sent| ensures SentOk(s', s'.sent[k]) {
      assert SentOk(s, s.sent[k]);
    }
  }

  lemma RestartKeeps(s: State)
    requires Inv(s)
    ensures Inv(Apply(s, Restart))
  {
    var s' := Apply(s, Restart);
    forall x | x in s'.plans ensures PlanOk(s', x) {
      assert PlanOk(s, x);
    }
    forall c: nat | c < |s'.requests| ensures RequestOk(s', c) {
      assert RequestOk(s, c);
    }
    forall k | 0 <= k < |s'.sent| ensures SentOk(s', s'.sent[k]) {
      assert SentOk(s, s.sent[k]);
    }
  }

  lemma PostKeeps(s: State, id: Id, click: bool, confirm: bool)
    requires Inv(s)
    ensures Inv(Apply(s, Post(id, click, confirm)))
  {
    var s' := Apply(s, Post(id, click, confirm));
    forall x | x in s'.plans ensures PlanOk(s', x) {
      assert PlanOk(s, x);
    }
    forall c: nat | c < |s'.requests| ensures RequestOk(s', c) {
      assert c < |s.requests| ==> RequestOk(s, c);
    }
    forall i: nat | i < |s'.todo| ensures TodoOk(s', i) {
      assert TodoOk(s, i);
    }
    forall k | 0 <= k < |s'.sent| ensures SentOk(s', s'.sent[k]) {
      assert SentOk(s, s.sent[k]);
    }
  }

  /** A request that has not won goes on or gives up. */
  lemma AskKeeps(s: State, c: nat, pc: Pc)
    requires Inv(s) && c < |s.requests| && (s.requests[c].pc == Start || s.requests[c].pc == Checked)
    requires pc == Done || (pc == Checked && Passes(s, s.requests[c]))
    ensures Inv(Go(s, Desk(c), pc))
  {
    var s' := Go(s, Desk(c), pc);
    forall x | x in s'.plans ensures PlanOk(s', x) {
      assert PlanOk(s, x);
    }
    forall d: nat | d < |s'.requests| ensures RequestOk(s', d) {
      assert RequestOk(s, d);
    }
    forall i: nat | i < |s'.todo| ensures TodoOk(s', i) {
      assert TodoOk(s, i);
    }
    forall k | 0 <= k < |s'.sent| ensures SentOk(s', s'.sent[k]) {
      assert SentOk(s, s.sent[k]);
    }
  }

  lemma WinPlan(s: State, c: nat, x: Id)
    requires Inv(s) && Enabled(s, Cas(c)) && x in s.plans
    requires s.requests[c].id in s.plans && s.plans[s.requests[c].id].status == Issued
    ensures PlanOk(Apply(s, Cas(c)), x)
  {
    assert RequestOk(s, c) && PlanOk(s, x) && PlanOk(s, s.requests[c].id);
  }

  lemma WinRequest(s: State, c: nat, d: nat)
    requires Inv(s) && Enabled(s, Cas(c)) && d < |s.requests|
    requires s.requests[c].id in s.plans && s.plans[s.requests[c].id].status == Issued
    ensures RequestOk(Apply(s, Cas(c)), d)
  {
    assert RequestOk(s, c) && RequestOk(s, d) && PlanOk(s, s.requests[c].id);
  }

  lemma WinTodo(s: State, c: nat, i: nat)
    requires Inv(s) && Enabled(s, Cas(c)) && i < |s.todo|
    requires s.requests[c].id in s.plans && s.plans[s.requests[c].id].status == Issued
    ensures TodoOk(Apply(s, Cas(c)), i)
  {
    assert RequestOk(s, c) && TodoOk(s, i) && PlanOk(s, s.requests[c].id);
  }

  lemma WinSent(s: State, c: nat, k: nat)
    requires Inv(s) && Enabled(s, Cas(c)) && k < |s.sent|
    requires s.requests[c].id in s.plans && s.plans[s.requests[c].id].status == Issued
    ensures SentOk(Apply(s, Cas(c)), s.sent[k])
  {
    assert RequestOk(s, c) && SentOk(s, s.sent[k]) && PlanOk(s, s.requests[c].id);
  }

  lemma CasKeeps(s: State, c: nat)
    requires Inv(s) && Enabled(s, Cas(c))
    ensures Inv(Apply(s, Cas(c)))
  {
    var id := s.requests[c].id;
    assert RequestOk(s, c);
    if s.plans[id].status != Issued {
      AskKeeps(s, c, Done);
    } else {
      forall x | x in s.plans ensures PlanOk(Apply(s, Cas(c)), x) {
        WinPlan(s, c, x);
      }
      forall d: nat | d < |s.requests| ensures RequestOk(Apply(s, Cas(c)), d) {
        WinRequest(s, c, d);
      }
      forall i: nat | i < |s.todo| ensures TodoOk(Apply(s, Cas(c)), i) {
        WinTodo(s, c, i);
      }
      forall k | 0 <= k < |s.sent| ensures SentOk(Apply(s, Cas(c)), s.sent[k]) {
        WinSent(s, c, k);
      }
    }
  }

  lemma SendKeeps(s: State, who: Who)
    requires Inv(s) && Enabled(s, Send(who))
    ensures Inv(Apply(s, Send(who)))
  {
    Workers(s, who);
    var s' := Apply(s, Send(who));
    assert who.Monitor? ==> TodoOk(s, 0);
    forall x | x in s'.plans ensures PlanOk(s', x) {
      assert PlanOk(s, x);
    }
    forall c: nat | c < |s'.requests| ensures RequestOk(s', c) {
      assert RequestOk(s, c);
    }
    forall i: nat | i < |s'.todo| ensures TodoOk(s', i) {
      assert TodoOk(s, i);
    }
    forall k | 0 <= k < |s'.sent| ensures SentOk(s', s'.sent[k]) {
      if k < |s.sent| {
        assert SentOk(s, s.sent[k]);
      }
    }
  }

  /** The facts the closing steps rest on. */
  lemma WorkerStatus(s: State, who: Who)
    requires Inv(s) && Present(s, who) && Working(At(s, who))
    ensures var id, pc := PlanOf(s, who), At(s, who);
            && id in s.plans
            && (IsEntry(id) ==> OwnedStatus(KindOf(id), pc, s.plans[id].status))
            && (Unattended(s, id) ==> MonitoredStatus(KindOf(id), pc, s.plans[id].status))
            && (!IsEntry(id) && !Unattended(s, id) ==> ExitStatus(s.plans[id].status))
  {
    Workers(s, who);
    var id := PlanOf(s, who);
    assert PlanOk(s, id);
    if who.Desk? {
      assert RequestOk(s, who.c);
    } else {
      assert TodoOk(s, 0);
    }
  }

  lemma EntryPutFrame(s: State, who: Who, st: Status, from: set<Status>, pc: Pc)
    requires Present(s, who) && PlanOf(s, who) in s.plans && !IsEntry(PlanOf(s, who))
    requires Legal(s, PlanOf(s, who), pc, s.plans[PlanOf(s, who)].status)
    ensures var id, s' := PlanOf(s, who), Put(s, EntryId(PlanOf(s, who).n), st, from);
            && Present(s', who) && PlanOf(s', who) == id && At(s', who) == At(s, who) && id in s'.plans
            && s'.plans[id] == s.plans[id] && Legal(s', id, pc, s'.plans[id].status)
  {
  }

  /** A step that moves a worker and its entry. */
  lemma EntryMoves(s: State, who: Who, st: Status, from: set<Status>, pc: Pc)
    requires Inv(s) && Present(s, who) && PlanOf(s, who) in s.plans && !IsEntry(PlanOf(s, who))
    requires CanMove(s, who, pc, s.plans[PlanOf(s, who)].status)
    requires (st == Exiting || st == Closed) && (from == {Open} || from == {Open, Exiting})
    ensures Inv(Go(Put(s, EntryId(PlanOf(s, who).n), st, from), who, pc))
  {
    var s1 := Put(s, EntryId(PlanOf(s, who).n), st, from);
    EntryPutKeeps(s, PlanOf(s, who).n, st, from);
    EntryPutFrame(s, who, st, from, pc);
    StayKeeps(s1, who, pc);
  }

  /** A step that moves a worker and its position. */
  lemma PositionMoves(s: State, who: Who, open: bool, pc: Pc)
    requires Inv(s) && Present(s, who) && PlanOf(s, who) in s.plans
        && CanMove(s, who, pc, s.plans[PlanOf(s, who)].status)
    ensures Inv(Go(s.(positions := s.positions[PlanOf(s, who).n := open]), who, pc))
  {
    var s1 := s.(positions := s.positions[PlanOf(s, who).n := open]);
    SameKeeps(s, s1);
    StayKeeps(s1, who, pc);
  }

  lemma WorkKeeps(s: State, t: Step)
    requires Inv(s) && Enabled(s, t) && (t.Mark? || t.MarkEntry? || t.Stop?)
    ensures Inv(Apply(s, t))
  {
    var who := t.who;
    WorkerStatus(s, who);
    match t
    case Mark(_) => MoveKeeps(s, who, Marked, Filling);
    case MarkEntry(_) =>
      var id := PlanOf(s, who);
      if KindOf(id) == Exit {
        EntryMoves(s, who, Exiting, {Open}, Sending);
      } else {
        StayKeeps(s, who, Sending);
      }
    case Stop(_) => StayKeeps(s, who, Done);
  }

  lemma ConcludeKeeps(s: State, who: Who, full: bool)
    requires Inv(s) && Enabled(s, Conclude(who, full))
    ensures Inv(Apply(s, Conclude(who, full)))
  {
    WorkerStatus(s, who);
    var id := PlanOf(s, who);
    match KindOf(id)
    case Entry =>
      if full {
        PositionMoves(s, who, true, Closing);
      } else {
        MoveKeeps(s, who, Done, Abandoned);
      }
    case Add => MoveKeeps(s, who, Done, if full then Open else Abandoned);
    case Exit =>
      if full {
        PositionMoves(s, who, false, Closing);
      } else {
        StayKeeps(s, who, Done);
      }
    case Roll =>
      if full {
        MoveKeeps(s, who, Done, Open);
      } else {
        MoveKeeps(s, who, Closing, Abandoned);
      }
  }

  lemma Conclude2Keeps(s: State, who: Who)
    requires Inv(s) && Enabled(s, Conclude2(who))
    ensures Inv(Apply(s, Conclude2(who)))
  {
    WorkerStatus(s, who);
    var id := PlanOf(s, who);
    match KindOf(id)
    case Exit => MoveKeeps(s, who, Last, Closed);
    case Roll => PositionMoves(s, who, false, Last);
    case _ => MoveKeeps(s, who, Done, Open);
  }

  lemma Conclude3Keeps(s: State, who: Who)
    requires Inv(s) && Enabled(s, Conclude3(who))
    ensures Inv(Apply(s, Conclude3(who)))
  {
    WorkerStatus(s, who);
    var id := PlanOf(s, who);
    EntryMoves(s, who, Closed, if KindOf(id) == Exit then {Open, Exiting} else {Open}, Done);
  }

  lemma StepKeeps(s: State, t: Step)
    requires Inv(s) && Enabled(s, t)
    ensures Inv(Apply(s, t))
  {
    match t
    case Read => SameKeeps(s, Apply(s, Read));
    case Raise(id, p) => RaiseKeeps(s, id, p);
    case Wait(now) => SameKeeps(s, s.(clock := now));
    case Lapse(now) => LapseKeeps(s, now);
    case Snapshot => SnapshotKeeps(s);
    case Restart => RestartKeeps(s);
    case Post(id, click, confirm) => PostKeeps(s, id, click, confirm);
    case Check(c) => AskKeeps(s, c, if Passes(s, s.requests[c]) then Checked else Done);
    case Refuse(c) => AskKeeps(s, c, Done);
    case Cas(c) => CasKeeps(s, c);
    case Send(who) => SendKeeps(s, who);
    case Conclude(who, full) => ConcludeKeeps(s, who, full);
    case Conclude2(who) => Conclude2Keeps(s, who);
    case Conclude3(who) => Conclude3Keeps(s, who);
    case _ => WorkKeeps(s, t);
  }

  lemma {:induction false} RunKeeps(s: State, steps: seq<Step>)
    requires Inv(s) && IsRun(s, steps)
    ensures Inv(After(s, steps))
    decreases |steps|
  {
    if steps != [] {
      StepKeeps(s, steps[0]);
      RunKeeps(Apply(s, steps[0]), steps[1..]);
    }
  }

  // ----- who sends -----

  ghost predicate Reachable(s: State) {
    exists steps :: IsRun(INITIAL, steps) && After(INITIAL, steps) == s
  }

  lemma ReachableInv(s: State)
    requires Reachable(s)
    ensures Inv(s)
  {
    var steps :| IsRun(INITIAL, steps) && After(INITIAL, steps) == s;
    InvInitial();
    RunKeeps(INITIAL, steps);
  }

  /** Every order of an entry or add plan was sent by one request: the one that won its compare-and-set,
      with confirm true. */
  lemma OneSender(s: State, o: Order)
    requires Reachable(s) && o in s.sent && IsEntry(o.id)
    ensures o.id in s.winner && o.who == Desk(s.winner[o.id])
    ensures s.winner[o.id] < |s.requests|
    ensures var r := s.requests[s.winner[o.id]]; r.id == o.id && r.confirm && !r.click
  {
    ReachableInv(s);
    var k :| 0 <= k < |s.sent| && s.sent[k] == o;
    assert SentOk(s, s.sent[k]) && PlanOk(s, o.id);
  }

  /** A plan that waits, lapsed or was refused has never been sent: an entry not yet confirmed, an exit
      before its click, a roll not yet marked. */
  lemma NeverSent(s: State, o: Order)
    requires Reachable(s) && o in s.sent
    ensures o.id in s.plans
    ensures var st := s.plans[o.id].status; st != Issued && st != Lapsed && st != Rejected
  {
    ReachableInv(s);
    var k :| 0 <= k < |s.sent| && s.sent[k] == o;
    assert SentOk(s, s.sent[k]);
    assert PlanOk(s, o.id);
  }

  /** An exit that waits for a click is sent only after a confirmed click won it. */
  lemma ClickFirst(s: State, o: Order)
    requires Reachable(s) && o in s.sent && KindOf(o.id) == Exit && o.id in s.plans && s.plans[o.id].byClick
    ensures o.id in s.winner && s.winner[o.id] < |s.requests|
    ensures var r := s.requests[s.winner[o.id]]; r.id == o.id && r.confirm && r.click
  {
    ReachableInv(s);
    var k :| 0 <= k < |s.sent| && s.sent[k] == o;
    assert SentOk(s, s.sent[k]) && PlanOk(s, o.id);
  }

  /** At any moment an entry, an add, a roll, and an exit the monitor may send have one worker at most. */
  lemma OneWorker(s: State, a: Who, b: Who)
    requires Reachable(s) && Present(s, a) && Present(s, b) && Working(At(s, a)) && Working(At(s, b))
    requires PlanOf(s, a) == PlanOf(s, b)
    requires IsEntry(PlanOf(s, a)) || Unattended(s, PlanOf(s, a))
    ensures a == b
  {
    ReachableInv(s);
    Workers(s, a);
    Workers(s, b);
  }

  // ----- the status diagram -----

  predicate Arrow(kind: Kind, a: Status, b: Status) {
    match kind
    case Exit => (a == Confirmed && b == Filling) || (a == Filling && b == Closed)
    case Roll => (a == Issued && b == Filling) || (a == Filling && (b == Open || b == Abandoned))
    case _ =>
      || (a == Issued && (b == Confirmed || (kind == Entry && b == Lapsed)))
      || (a == Confirmed && b == Filling)
      || (a == Filling && (b == Open || b == Abandoned))
      || (kind == Entry && ((a == Open && (b == Exiting || b == Closed)) || (a == Exiting && b == Closed)))
  }

  /** The steps of a worker on its plan. */
  predicate Works(t: Step) {
    t.Mark? || t.MarkEntry? || t.Send? || t.Stop? || t.Conclude? || t.Conclude2? || t.Conclude3?
  }

  ghost predicate Follows(s: State, s': State, id: Id) {
    && id in s.plans && id in s'.plans && s'.plans[id].byClick == s.plans[id].byClick
    && (s.plans[id].status == s'.plans[id].status || Arrow(KindOf(id), s.plans[id].status, s'.plans[id].status))
  }

  lemma MarkFollows(s: State, who: Who, id: Id)
    requires Inv(s) && Follows(s, s, id) && (IsEntry(id) || Unattended(s, id)) && Enabled(s, Mark(who))
    ensures Follows(s, Apply(s, Mark(who)), id)
  {
    WorkerStatus(s, who);
  }

  lemma MarkEntryFollows(s: State, who: Who, id: Id)
    requires Inv(s) && Follows(s, s, id) && (IsEntry(id) || Unattended(s, id)) && Enabled(s, MarkEntry(who))
    ensures Follows(s, Apply(s, MarkEntry(who)), id)
  {
    WorkerStatus(s, who);
  }

  lemma ConcludeFollows(s: State, who: Who, full: bool, id: Id)
    requires Follows(s, s, id) && Enabled(s, Conclude(who, full))
    requires PlanOf(s, who) == id ==> s.plans[id].status == Filling
    ensures Follows(s, ConcludeOf(s, who, full), id)
  {
  }

  lemma Conclude2Follows(s: State, who: Who, id: Id)
    requires Follows(s, s, id) && Enabled(s, Conclude2(who))
    requires PlanOf(s, who) == id && KindOf(id) != Roll ==> s.plans[id].status == Filling
    ensures Follows(s, Apply(s, Conclude2(who)), id)
  {
  }

  lemma Conclude3Follows(s: State, who: Who, id: Id)
    requires Inv(s) && Follows(s, s, id) && (IsEntry(id) || Unattended(s, id)) && Enabled(s, Conclude3(who))
    ensures Follows(s, Apply(s, Conclude3(who)), id)
  {
    WorkerStatus(s, who);
  }

  lemma CasFollows(s: State, c: nat, id: Id)
    requires Inv(s) && Follows(s, s, id) && (IsEntry(id) || Unattended(s, id)) && Enabled(s, Cas(c))
    ensures Follows(s, Apply(s, Cas(c)), id)
  {
    assert RequestOk(s, c);
  }

  /** The steps that are nobody's work on a plan. */
  lemma AsideFollows(s: State, t: Step, id: Id)
    requires Follows(s, s, id) && (IsEntry(id) || Unattended(s, id)) && Enabled(s, t) && !Works(t) && !t.Cas?
    ensures Follows(s, Apply(s, t), id)
  {
  }

  lemma WorkFollows(s: State, t: Step, id: Id)
    requires Inv(s) && Follows(s, s, id) && (IsEntry(id) || Unattended(s, id)) && Enabled(s, t) && Works(t)
    ensures Follows(s, Apply(s, t), id)
  {
    match t
    case Mark(who) => MarkFollows(s, who, id);
    case MarkEntry(who) => MarkEntryFollows(s, who, id);
    case Conclude(who, full) =>
      AtWork(s, who, id);
      ConcludeFollows(s, who, full, id);
    case Conclude2(who) =>
      AtWork(s, who, id);
      Conclude2Follows(s, who, id);
    case Conclude3(who) => Conclude3Follows(s, who, id);
    case Send(who) =>
    case Stop(who) =>
  }

  /** Every step moves each plan's status along an arrow or leaves it, except for an exit by click. */
  lemma StatusDiagram(s: State, t: Step, id: Id)
    requires Inv(s) && Enabled(s, t) && id in s.plans && (IsEntry(id) || Unattended(s, id))
    ensures Follows(s, Apply(s, t), id)
  {
    if Works(t) {
      WorkFollows(s, t, id);
    } else if t.Cas? {
      CasFollows(s, t.c, id);
    } else {
      AsideFollows(s, t, id);
    }
  }

  /** A plan is FILLING while its worker sends, and, but for a roll, until it closes. */
  lemma AtWork(s: State, who: Who, id: Id)
    requires Inv(s) && (IsEntry(id) || Unattended(s, id)) && Present(s, who)
        && (At(s, who) == Sending || At(s, who) == Closing)
    ensures PlanOf(s, who) == id && (At(s, who) == Sending || KindOf(id) != Roll)
        ==> id in s.plans && s.plans[id].status == Filling
  {
    WorkerStatus(s, who);
  }

  /** No arrow leaves these. */
  predicate Final(kind: Kind, st: Status) {
    st == Lapsed || st == Rejected || st == Abandoned || st == Closed || ((kind == Roll || kind == Add) && st == Open)
  }

  /** Orders go out only while their plan is FILLING. */
  lemma SentWhileFilling(s: State, who: Who)
    requires Inv(s) && Enabled(s, Send(who)) && (IsEntry(PlanOf(s, who)) || Unattended(s, PlanOf(s, who)))
    ensures PlanOf(s, who) in s.plans && s.plans[PlanOf(s, who)].status == Filling
  {
    WorkerStatus(s, who);
  }

  /** The send log grew, but not for this plan. */
  ghost predicate Quiet(before: State, after: State, id: Id) {
    && before.sent <= after.sent
    && forall k :: |before.sent| <= k < |after.sent| ==> after.sent[k].id != id
  }

  lemma QuietTrans(a: State, b: State, c: State, id: Id)
    requires Quiet(a, b, id) && Quiet(b, c, id)
    ensures Quiet(a, c, id)
  {
    forall k | |a.sent| <= k < |c.sent| ensures c.sent[k].id != id {
      if k < |b.sent| {
        assert c.sent[k] == b.sent[k];
      }
    }
  }

  /** A step grows the log only by sending. */
  lemma QuietStep(s: State, t: Step, id: Id)
    requires Enabled(s, t) && (t.Send? ==> PlanOf(s, t.who) != id)
    ensures Quiet(s, Apply(s, t), id)
  {
  }

  /** The plan is final. */
  ghost predicate IsFinal(s: State, id: Id) {
    id in s.plans && (IsEntry(id) || Unattended(s, id)) && Final(KindOf(id), s.plans[id].status)
  }

  lemma StaysFinal(s: State, t: Step, id: Id)
    requires Inv(s) && Enabled(s, t) && IsFinal(s, id)
    ensures var s' := Apply(s, t); IsFinal(s', id) && s'.plans[id].status == s.plans[id].status
  {
    StatusDiagram(s, t, id);
  }

  lemma FinalIsQuiet(s: State, t: Step, id: Id)
    requires Inv(s) && Enabled(s, t) && IsFinal(s, id)
    ensures Quiet(s, Apply(s, t), id)
  {
    if t.Send? && PlanOf(s, t.who) == id {
      SentWhileFilling(s, t.who);
    }
    QuietStep(s, t, id);
  }

  /** Once final, a plan's status never changes again and nothing more is ever sent for it. */
  lemma {:induction false} FinalForever(s: State, steps: seq<Step>, id: Id)
    requires Inv(s) && IsRun(s, steps) && IsFinal(s, id)
    ensures id in After(s, steps).plans && After(s, steps).plans[id].status == s.plans[id].status
    ensures Quiet(s, After(s, steps), id)
    decreases |steps|
  {
    if steps != [] {
      var s' := Apply(s, steps[0]);
      StaysFinal(s, steps[0], id);
      FinalIsQuiet(s, steps[0], id);
      StepKeeps(s, steps[0]);
      FinalForever(s', steps[1..], id);
      QuietTrans(s, s', After(s', steps[1..]), id);
    }
  }

  /** A position takes its add once at most: when an add has filled, no one ever works on its plan again. */
  lemma {:induction false} AddOnce(s: State, who: Who, n: nat, steps: seq<Step>, again: Who)
    requires Inv(s) && Enabled(s, Conclude(who, true)) && PlanOf(s, who) == AddId(n)
    requires var s' := Apply(s, Conclude(who, true)); IsRun(s', steps) && Present(After(s', steps), again)
    ensures var end := After(Apply(s, Conclude(who, true)), steps);
            PlanOf(end, again) == AddId(n) ==> !Working(At(end, again))
  {
    WorkerStatus(s, who);
    var s' := Apply(s, Conclude(who, true));
    StepKeeps(s, Conclude(who, true));
    FinalForever(s', steps, AddId(n));
    RunKeeps(s', steps);
    var end := After(s', steps);
    if PlanOf(end, again) == AddId(n) && Working(At(end, again)) {
      WorkerStatus(end, again);
      AddOwner(end, again, n);
    }
  }

  /** An add's worker is never at a finished plan. */
  lemma AddOwner(s: State, who: Who, n: nat)
    requires Inv(s) && Present(s, who) && Working(At(s, who)) && PlanOf(s, who) == AddId(n)
    ensures AddId(n) in s.plans && s.plans[AddId(n)].status != Open
  {
    WorkerStatus(s, who);
  }

  /** An entry or add whose request ended without a closing write. */
  ghost predicate Interrupted(s: State, id: Id) {
    && Inv(s) && id in s.plans && IsEntry(id) && s.plans[id].status == Filling
    && id in s.winner && s.winner[id] < |s.requests| && s.requests[s.winner[id]].pc == Done
  }

  /** What keeps a plan interrupted, its invariant aside. */
  ghost predicate StillFilling(s: State, id: Id) {
    && id in s.plans && s.plans[id].status == Filling
    && id in s.winner && s.winner[id] < |s.requests| && s.requests[s.winner[id]].pc == Done
  }

  /** Someone else is at work. */
  ghost predicate Other(s: State, who: Who, id: Id) {
    && StillFilling(s, id) && IsEntry(id) && Present(s, who)
    && PlanOf(s, who) != id && (who.Desk? ==> who.c != s.winner[id])
  }

  /** A worker is not the one that ended. */
  lemma NotTheOwner(s: State, who: Who, id: Id)
    requires Interrupted(s, id) && Present(s, who) && Working(At(s, who))
    ensures Other(s, who, id)
  {
    Workers(s, who);
  }

  lemma MarkOther(s: State, who: Who, id: Id)
    requires Other(s, who, id) && Enabled(s, Mark(who))
    ensures StillFilling(Apply(s, Mark(who)), id)
  {
  }

  lemma MarkEntryOther(s: State, who: Who, id: Id)
    requires Other(s, who, id) && Enabled(s, MarkEntry(who))
    ensures StillFilling(Apply(s, MarkEntry(who)), id)
  {
  }

  lemma ConcludeOther(s: State, who: Who, full: bool, id: Id)
    requires Other(s, who, id) && Enabled(s, Conclude(who, full))
    ensures StillFilling(Apply(s, Conclude(who, full)), id)
  {
  }

  lemma Conclude2Other(s: State, who: Who, id: Id)
    requires Other(s, who, id) && Enabled(s, Conclude2(who))
    ensures StillFilling(Apply(s, Conclude2(who)), id)
  {
  }

  lemma Conclude3Other(s: State, who: Who, id: Id)
    requires Other(s, who, id) && Enabled(s, Conclude3(who))
    ensures StillFilling(Apply(s, Conclude3(who)), id)
  {
  }

  lemma InterruptedStep(s: State, t: Step, id: Id)
    requires StillFilling(s, id) && IsEntry(id) && Enabled(s, t)
    requires Works(t) ==> Other(s, t.who, id)
    ensures StillFilling(Apply(s, t), id)
  {
    match t
    case Mark(who) => MarkOther(s, who, id);
    case MarkEntry(who) => MarkEntryOther(s, who, id);
    case Conclude(who, full) => ConcludeOther(s, who, full, id);
    case Conclude2(who) => Conclude2Other(s, who, id);
    case Conclude3(who) => Conclude3Other(s, who, id);
    case _ =>
  }

  /** As when a quote goes missing between two of its orders: it stays FILLING for ever. */
  lemma {:induction false} InterruptedForever(s: State, steps: seq<Step>, id: Id)
    requires Interrupted(s, id) && IsRun(s, steps)
    ensures Interrupted(After(s, steps), id) && Quiet(s, After(s, steps), id)
    decreases |steps|
  {
    if steps != [] {
      var s' := Apply(s, steps[0]);
      if Works(steps[0]) {
        NotTheOwner(s, steps[0].who, id);
      }
      InterruptedStep(s, steps[0], id);
      StepKeeps(s, steps[0]);
      QuietStep(s, steps[0], id);
      InterruptedForever(s', steps[1..], id);
      QuietTrans(s, s', After(s', steps[1..]), id);
    }
  }

}
