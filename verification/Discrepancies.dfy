/**
 * Deciding a discrepancy and the employee-debt ledger it writes: src/closing/discrepancies.service.ts
 * and src/closing/debt-rules.ts. Resolving reads, then writes under a guard; owners interleave.
 */
module Discrepancies {
  import opened Prelude
  import Channels
  import Closing

  type User = nat

  datatype Resolution = EmployeeDebt | StoreAbsorbed | ErrorCorrected | ForgivenDebt

  datatype EntryKind = Charge | Repayment | Deduction | Forgiveness

  datatype Arrival = ByCash | ByAccount | ByPayroll

  datatype Status = PendingInvestigation | Resolved

  /** Amount is signed: negative is a shortage. */
  datatype Discrepancy =
    Discrepancy(amount: int, status: Status, resolution: Option<Resolution>, responsible: Option<User>, version: nat)

  datatype Entry = Entry(user: User, discrepancy: Option<nat>, kind: EntryKind, amount: int, clientUuid: Option<nat>)

  datatype Db = Db(discrepancies: seq<Discrepancy>, entries: seq<Entry>, staff: set<User>)

  datatype Decision = Decision(id: nat, resolution: Resolution, reasonGiven: bool, responsible: Option<User>)

  datatype Standalone =
    Standalone(user: User, kind: EntryKind, amount: int, reasonGiven: bool, arrival: Option<Arrival>, clientUuid: Option<nat>)

  // ---------------------------------------------------------------- debt-rules.ts

  predicate NeedsAPerson(r: Resolution) {
    r == EmployeeDebt || r == ForgivenDebt
  }

  datatype PlanRow = PlanRow(kind: EntryKind, amount: int)

  function Abs(n: int): int {
    if n < 0 then -n else n
  }

  /** planResolution: the ledger rows a resolution implies, or None where it refuses. */
  function PlanResolution(d: Decision, amount: int): Option<seq<PlanRow>> {
    if !d.reasonGiven || amount == 0 then None
    else if NeedsAPerson(d.resolution) != d.responsible.Some? then None
    else if amount > 0 && d.resolution == EmployeeDebt then None
    else
      match d.resolution
      case EmployeeDebt => Some([PlanRow(Charge, Abs(amount))])
      case ForgivenDebt => Some([PlanRow(Charge, Abs(amount)), PlanRow(Forgiveness, Abs(amount))])
      case _ => Some([])
  }

  function SignedAmount(e: Entry): int {
    if e.kind == Charge then e.amount else -e.amount
  }

  /** What somebody owes, derived from their ledger. */
  function Balance(entries: seq<Entry>, u: User): int {
    if entries == [] then 0
    else
      var e := entries[|entries| - 1];
      Balance(entries[..|entries| - 1], u) + if e.user == u then SignedAmount(e) else 0
  }

  predicate EntryAllowed(x: Standalone, outstanding: int) {
    && x.reasonGiven
    && 0 < x.amount <= outstanding
    && x.kind != Charge
    && (x.kind == Repayment <==> x.arrival.Some?)
  }

  // ---------------------------------------------------------------- resolve

  function PlannedEntries(plan: seq<PlanRow>, u: User, id: nat): seq<Entry> {
    seq(|plan|, i requires 0 <= i < |plan| => Entry(u, Some(id), plan[i].kind, plan[i].amount, None))
  }

  /** Everything up to the transaction, decided from the row read. */
  function Prepare(db: Db, read: Discrepancy, d: Decision): Option<Refusal> {
    if read.status == Resolved then Some(Conflict)
    else if PlanResolution(d, read.amount).None? then Some(BadRequest)
    else if d.responsible.Some? && d.responsible.value !in db.staff then Some(BadRequest)
    else None
  }

  /** The transaction: guarded on the version read and on still being pending, then one row per plan row. */
  function Commit(db: Db, read: Discrepancy, d: Decision): (Db, Outcome)
    requires d.id < |db.discrepancies| && PlanResolution(d, read.amount).Some?
  {
    var cur := db.discrepancies[d.id];
    if cur.version != read.version || cur.status != PendingInvestigation then (db, Refused(Conflict))
    else
      var plan := PlanResolution(d, read.amount).value;
      var cur' := cur.(status := Resolved, resolution := Some(d.resolution), responsible := d.responsible,
                       version := cur.version + 1);
      (db.(discrepancies := db.discrepancies[d.id := cur'],
           entries := db.entries + if d.responsible.Some? then PlannedEntries(plan, d.responsible.value, d.id) else []),
       Done)
  }

  function ApplyResolve(db: Db, d: Decision): (Db, Outcome) {
    if d.id >= |db.discrepancies| then (db, Refused(NotFound))
    else
      match Prepare(db, db.discrepancies[d.id], d)
      case Some(why) => (db, Refused(why))
      case None => Commit(db, db.discrepancies[d.id], d)
  }

  // ---------------------------------------------------------------- addEntry

  predicate WasAdded(entries: seq<Entry>, uuid: nat) {
    exists i :: 0 <= i < |entries| && entries[i].clientUuid == Some(uuid)
  }

  function ApplyEntry(db: Db, x: Standalone): (Db, Outcome) {
    if x.user !in db.staff then (db, Refused(NotFound))
    else if !EntryAllowed(x, Balance(db.entries, x.user)) then (db, Refused(BadRequest))
    else if x.clientUuid.Some? && WasAdded(db.entries, x.clientUuid.value) then (db, Replayed)
    else (db.(entries := db.entries + [Entry(x.user, None, x.kind, x.amount, x.clientUuid)]), Done)
  }

  // ---------------------------------------------------------------- interleaved owners

  datatype Pending = Pending(decision: Decision, read: Discrepancy)

  datatype World = World(db: Db, owners: map<nat, Pending>)

  datatype Move =
    | OpenNew(amount: int) // a closing opens a discrepancy
    | Begin(owner: nat, decision: Decision)
    | Finish(owner: nat)
    | Add(entry: Standalone)

  predicate Wins(w: World, m: Move) {
    && m.Finish? && m.owner in w.owners
    && w.owners[m.owner].decision.id < |w.db.discrepancies|
    && PlanResolution(w.owners[m.owner].decision, w.owners[m.owner].read.amount).Some?
    && Commit(w.db, w.owners[m.owner].read, w.owners[m.owner].decision).1 == Done
  }

  function Next(w: World, m: Move): World {
    match m
    case OpenNew(amount) =>
      w.(db := w.db.(discrepancies := w.db.discrepancies + [Discrepancy(amount, PendingInvestigation, None, None, 0)]))
    case Begin(owner, d) =>
      if owner !in w.owners && d.id < |w.db.discrepancies| && Prepare(w.db, w.db.discrepancies[d.id], d).None?
      then w.(owners := w.owners[owner := Pending(d, w.db.discrepancies[d.id])])
      else w
    case Finish(owner) =>
      if owner !in w.owners then w
      else
        var p := w.owners[owner];
        World(if Wins(w, m) then Commit(w.db, p.read, p.decision).0 else w.db, w.owners - {owner})
    case Add(x) => w.(db := ApplyEntry(w.db, x).0)
  }

  function Runs(w: World, moves: seq<Move>): World {
    if moves == [] then w else Next(Runs(w, moves[..|moves| - 1]), moves[|moves| - 1])
  }

  // ---------------------------------------------------------------- the invariant

  /** Ledger rows that name this discrepancy, in order. */
  function Written(entries: seq<Entry>, id: nat): seq<Entry> {
    if entries == [] then []
    else
      var e, before := entries[|entries| - 1], Written(entries[..|entries| - 1], id);
      if e.discrepancy == Some(id) then before + [e] else before
  }

  /** The rows of a discrepancy are exactly those planned for its recorded decision. */
  ghost predicate LedgerOf(d: Discrepancy, id: nat, written: seq<Entry>) {
    if d.status == PendingInvestigation then written == []
    else
      && d.resolution.Some?
      && PlanResolution(Decision(id, d.resolution.value, true, d.responsible), d.amount).Some?
      && var plan := PlanResolution(Decision(id, d.resolution.value, true, d.responsible), d.amount).value;
         && (plan != [] ==> d.responsible.Some?)
         && (d.responsible.Some? ==> written == PlannedEntries(plan, d.responsible.value, id))
         && (d.responsible.None? ==> written == [])
  }

  ghost predicate DebtsOk(db: Db) {
    && (forall id :: 0 <= id < |db.discrepancies| ==>
          LedgerOf(db.discrepancies[id], id, Written(db.entries, id)))
    && (forall i :: 0 <= i < |db.entries| ==>
          && db.entries[i].amount > 0
          && (db.entries[i].discrepancy.None? ==> db.entries[i].kind != Charge)
          && (db.entries[i].discrepancy.Some? ==> db.entries[i].discrepancy.value < |db.discrepancies|))
  }

  /** Shortages assigned to somebody as debt. */
  function Assigned(ds: seq<Discrepancy>, u: User): int {
    if ds == [] then 0
    else
      var d := ds[|ds| - 1];
      Assigned(ds[..|ds| - 1], u) + if IsDebtOf(d, u) then Abs(d.amount) else 0
  }

  predicate IsDebtOf(d: Discrepancy, u: User) {
    d.status == Resolved && d.resolution == Some(EmployeeDebt) && d.responsible == Some(u)
  }

  /** Repayments, deductions and write-offs entered on their own. */
  function Settled(entries: seq<Entry>, u: User): int {
    if entries == [] then 0
    else
      var e := entries[|entries| - 1];
      Settled(entries[..|entries| - 1], u) + if e.user == u && e.discrepancy.None? then e.amount else 0
  }

  ghost predicate BalancesOk(db: Db) {
    forall u: User :: Balance(db.entries, u) == Assigned(db.discrepancies, u) - Settled(db.entries, u) >= 0
  }

  /** A pending owner's row is still the current one while its version is. */
  ghost predicate Fresh(w: World) {
    forall owner :: owner in w.owners ==>
      var p := w.owners[owner];
      && p.decision.id < |w.db.discrepancies|
      && PlanResolution(p.decision, p.read.amount).Some?
      && (p.decision.responsible.Some? ==> p.decision.responsible.value in w.db.staff)
      && p.read.status == PendingInvestigation
      && p.read.version <= w.db.discrepancies[p.decision.id].version
      && (p.read.version == w.db.discrepancies[p.decision.id].version ==> p.read == w.db.discrepancies[p.decision.id])
  }

  ghost predicate Inv(w: World) {
    DebtsOk(w.db) && BalancesOk(w.db) && Fresh(w)
  }

  // ---------------------------------------------------------------- adding rows

  lemma {:induction false} WrittenAppend(a: seq<Entry>, b: seq<Entry>, id: nat)
    ensures Written(a + b, id) == Written(a, id) + Written(b, id)
    decreases |b|
  {
    if b == [] {
      assert a + b == a;
    } else {
      WrittenAppend(a, b[..|b| - 1], id);
      assert (a + b)[..|a + b| - 1] == a + b[..|b| - 1];
    }
  }

  lemma {:induction false} TotalsAppend(a: seq<Entry>, b: seq<Entry>, u: User)
    ensures Balance(a + b, u) == Balance(a, u) + Balance(b, u)
    ensures Settled(a + b, u) == Settled(a, u) + Settled(b, u)
    decreases |b|
  {
    if b == [] {
      assert a + b == a;
    } else {
      TotalsAppend(a, b[..|b| - 1], u);
      assert (a + b)[..|a + b| - 1] == a + b[..|b| - 1];
    }
  }

  lemma {:induction false} AssignedUpdate(ds: seq<Discrepancy>, i: nat, d: Discrepancy, u: User)
    requires i < |ds| && ds[i].status == PendingInvestigation
    ensures Assigned(ds[i := d], u) == Assigned(ds, u) + if IsDebtOf(d, u) then Abs(d.amount) else 0
  {
    var last := |ds| - 1;
    if i < last {
      AssignedUpdate(ds[..last], i, d, u);
      assert ds[i := d][..last] == ds[..last][i := d];
    } else {
      assert ds[i := d][..last] == ds[..last];
    }
  }

  /** A plan's rows add its charge, net of the waiver, to the responsible person and to nobody else. */
  lemma PlannedTotals(d: Decision, amount: int, who: User, u: User, id: nat)
    requires PlanResolution(d, amount).Some?
    ensures var rows := PlannedEntries(PlanResolution(d, amount).value, who, id);
            && Balance(rows, u) == (if who == u && d.resolution == EmployeeDebt then Abs(amount) else 0)
            && Settled(rows, u) == 0
            && (forall other :: Written(rows, other) == if other == id then rows else [])
            && (forall i :: 0 <= i < |rows| ==> rows[i].amount > 0 && rows[i].discrepancy == Some(id))
  {
    var rows := PlannedEntries(PlanResolution(d, amount).value, who, id);
    forall other: nat
      ensures Written(rows, other) == if other == id then rows else []
    {
      RowTotals(rows, u, other);
    }
    RowTotals(rows, u, id);
  }

  /** Up to two rows, spelled out. */
  lemma RowTotals(rows: seq<Entry>, u: User, id: nat)
    requires |rows| <= 2 && forall i :: 0 <= i < |rows| ==> rows[i].discrepancy.Some?
    ensures Settled(rows, u) == 0
    ensures Balance(rows, u) == (if |rows| > 0 && rows[0].user == u then SignedAmount(rows[0]) else 0)
                                + (if |rows| > 1 && rows[1].user == u then SignedAmount(rows[1]) else 0)
    ensures (forall i :: 0 <= i < |rows| ==> rows[i].discrepancy == Some(id)) ==> Written(rows, id) == rows
    ensures (forall i :: 0 <= i < |rows| ==> rows[i].discrepancy != Some(id)) ==> Written(rows, id) == []
  {
    if |rows| > 0 {
      var front := rows[..|rows| - 1];
      assert rows == front + [rows[|rows| - 1]];
      if |front| > 0 {
        assert front[..0] == [] && front == [rows[0]];
      }
    }
  }

  // ---------------------------------------------------------------- every move keeps it

  lemma CommitKeepsBalances(db: Db, read: Discrepancy, d: Decision)
    requires BalancesOk(db) && d.id < |db.discrepancies| && PlanResolution(d, read.amount).Some?
    requires read == db.discrepancies[d.id] && read.status == PendingInvestigation
    ensures BalancesOk(Commit(db, read, d).0)
  {
    var db' := Commit(db, read, d).0;
    forall u: User
      ensures Balance(db'.entries, u) == Assigned(db'.discrepancies, u) - Settled(db'.entries, u) >= 0
    {
      AssignedUpdate(db.discrepancies, d.id, db'.discrepancies[d.id], u);
      if d.responsible.Some? {
        var rows := PlannedEntries(PlanResolution(d, read.amount).value, d.responsible.value, d.id);
        TotalsAppend(db.entries, rows, u);
        PlannedTotals(d, read.amount, d.responsible.value, u, d.id);
      } else {
        assert db'.entries == db.entries;
      }
    }
  }

  /** The rows a decision inserts. */
  function Inserted(read: Discrepancy, d: Decision): seq<Entry>
    requires PlanResolution(d, read.amount).Some?
  {
    if d.responsible.Some? then PlannedEntries(PlanResolution(d, read.amount).value, d.responsible.value, d.id) else []
  }

  lemma InsertedRows(read: Discrepancy, d: Decision, id: nat)
    requires PlanResolution(d, read.amount).Some?
    ensures Written(Inserted(read, d), id) == if id == d.id then Inserted(read, d) else []
    ensures forall i :: 0 <= i < |Inserted(read, d)| ==> Inserted(read, d)[i].amount > 0 && Inserted(read, d)[i].discrepancy == Some(d.id)
  {
    if d.responsible.Some? {
      PlannedTotals(d, read.amount, d.responsible.value, 0, d.id);
    }
  }

  lemma DecidedLedger(read: Discrepancy, d: Decision)
    requires PlanResolution(d, read.amount).Some?
    ensures LedgerOf(read.(status := Resolved, resolution := Some(d.resolution), responsible := d.responsible,
                           version := read.version + 1), d.id, Inserted(read, d))
  {
  }

  lemma CommitKeepsDebts(db: Db, read: Discrepancy, d: Decision)
    requires DebtsOk(db) && d.id < |db.discrepancies| && PlanResolution(d, read.amount).Some?
    requires read == db.discrepancies[d.id] && read.status == PendingInvestigation
    ensures DebtsOk(Commit(db, read, d).0)
  {
    var db' := Commit(db, read, d).0;
    assert db'.entries == db.entries + Inserted(read, d);
    InsertedRows(read, d, d.id);
    forall id | 0 <= id < |db'.discrepancies|
      ensures LedgerOf(db'.discrepancies[id], id, Written(db'.entries, id))
    {
      assert LedgerOf(db.discrepancies[id], id, Written(db.entries, id));
      WrittenAppend(db.entries, Inserted(read, d), id);
      InsertedRows(read, d, id);
      if id == d.id {
        DecidedLedger(read, d);
      }
    }
  }

  lemma EntryKeepsInv(db: Db, x: Standalone)
    requires DebtsOk(db) && BalancesOk(db)
    ensures DebtsOk(ApplyEntry(db, x).0) && BalancesOk(ApplyEntry(db, x).0)
  {
    if ApplyEntry(db, x).1 == Done {
      var db' := ApplyEntry(db, x).0;
      var e := Entry(x.user, None, x.kind, x.amount, x.clientUuid);
      assert db'.entries[..|db.entries|] == db.entries;
      forall u: User
        ensures Balance(db'.entries, u) == Assigned(db'.discrepancies, u) - Settled(db'.entries, u) >= 0
      {
        assert Balance(db.entries, u) == Assigned(db.discrepancies, u) - Settled(db.entries, u) >= 0;
      }
      forall id | 0 <= id < |db'.discrepancies|
        ensures LedgerOf(db'.discrepancies[id], id, Written(db'.entries, id))
      {
        assert LedgerOf(db.discrepancies[id], id, Written(db.entries, id));
      }
    }
  }

  lemma {:induction false} NoneWritten(entries: seq<Entry>, id: nat)
    requires forall i :: 0 <= i < |entries| ==> entries[i].discrepancy != Some(id)
    ensures Written(entries, id) == []
  {
    if entries != [] {
      NoneWritten(entries[..|entries| - 1], id);
    }
  }

  lemma OpenKeepsInv(w: World, amount: int)
    requires Inv(w)
    ensures Inv(Next(w, OpenNew(amount)))
  {
    var w' := Next(w, OpenNew(amount));
    var n := |w.db.discrepancies|;
    NoneWritten(w.db.entries, n);
    forall id | 0 <= id < |w'.db.discrepancies|
      ensures LedgerOf(w'.db.discrepancies[id], id, Written(w'.db.entries, id))
    {
      assert id < n ==> LedgerOf(w.db.discrepancies[id], id, Written(w.db.entries, id));
    }
    forall u: User
      ensures Balance(w'.db.entries, u) == Assigned(w'.db.discrepancies, u) - Settled(w'.db.entries, u) >= 0
    {
      assert w'.db.discrepancies[..n] == w.db.discrepancies;
      assert Balance(w.db.entries, u) == Assigned(w.db.discrepancies, u) - Settled(w.db.entries, u) >= 0;
    }
  }

  lemma NextKeepsInv(w: World, m: Move)
    requires Inv(w)
    ensures Inv(Next(w, m))
  {
    match m
    case OpenNew(amount) => OpenKeepsInv(w, amount);
    case Begin(_, _) =>
    case Finish(owner) =>
      if Wins(w, m) {
        var p := w.owners[owner];
        CommitKeepsBalances(w.db, p.read, p.decision);
        CommitKeepsDebts(w.db, p.read, p.decision);
      }
    case Add(x) => EntryKeepsInv(w.db, x);
  }

  lemma {:induction false} RunsKeepInv(w: World, moves: seq<Move>)
    requires Inv(w)
    ensures Inv(Runs(w, moves))
  {
    if moves != [] {
      RunsKeepInv(w, moves[..|moves| - 1]);
      NextKeepsInv(Runs(w, moves[..|moves| - 1]), moves[|moves| - 1]);
    }
  }

  // ---------------------------------------------------------------- over every interleaving

  function Fresh0(staff: set<User>): World {
    World(Db([], [], staff), map[])
  }

  lemma StartInv(staff: set<User>)
    ensures Inv(Fresh0(staff))
  {
  }

  /**
   * However owners interleave, a decided discrepancy has written exactly the rows planned for its
   * decision, in order and against the named person, and an undecided one has written none.
   */
  lemma ResolutionWritesItsPlan(staff: set<User>, moves: seq<Move>, id: nat)
    requires id < |Runs(Fresh0(staff), moves).db.discrepancies|
    ensures var db := Runs(Fresh0(staff), moves).db;
            LedgerOf(db.discrepancies[id], id, Written(db.entries, id))
  {
    StartInv(staff);
    RunsKeepInv(Fresh0(staff), moves);
  }

  /** Each person's balance is the shortages assigned to them less what they settled, and never negative. */
  lemma BalanceIsAssignedMinusSettled(staff: set<User>, moves: seq<Move>, u: User)
    ensures var db := Runs(Fresh0(staff), moves).db;
            Balance(db.entries, u) == Assigned(db.discrepancies, u) - Settled(db.entries, u) >= 0
  {
    StartInv(staff);
    RunsKeepInv(Fresh0(staff), moves);
  }

  /** A decision that wins is the whole call made at that instant on the current row. */
  lemma WinnerIsWholeResolve(w: World, owner: nat)
    requires Fresh(w) && Wins(w, Finish(owner))
    ensures (Next(w, Finish(owner)).db, Done) == ApplyResolve(w.db, w.owners[owner].decision)
  {
    var p := w.owners[owner];
    assert p.read == w.db.discrepancies[p.decision.id];
  }

  predicate ResolvesAt(w: World, moves: seq<Move>, i: nat, id: nat) {
    && i < |moves|
    && Wins(Runs(w, moves[..i]), moves[i])
    && Runs(w, moves[..i]).owners[moves[i].owner].decision.id == id
  }

  lemma NextKeepsResolved(w: World, m: Move, id: nat)
    requires Fresh(w) && id < |w.db.discrepancies|
    requires w.db.discrepancies[id].status == Resolved || (Wins(w, m) && w.owners[m.owner].decision.id == id)
    ensures id < |Next(w, m).db.discrepancies| && Next(w, m).db.discrepancies[id].status == Resolved
  {
  }

  lemma {:induction false} ResolvedStays(w: World, moves: seq<Move>, i: nat, n: nat, id: nat)
    requires Inv(w) && ResolvesAt(w, moves, i, id) && i < n <= |moves|
    ensures id < |Runs(w, moves[..n]).db.discrepancies|
    ensures Runs(w, moves[..n]).db.discrepancies[id].status == Resolved
    decreases n
  {
    assert moves[..n][..n - 1] == moves[..n - 1];
    RunsKeepInv(w, moves[..n - 1]);
    if i < n - 1 {
      ResolvedStays(w, moves, i, n - 1, id);
    }
    NextKeepsResolved(Runs(w, moves[..n - 1]), moves[n - 1], id);
  }

  /** No discrepancy is resolved twice. */
  lemma ResolvedAtMostOnce(staff: set<User>, moves: seq<Move>, i: nat, j: nat, id: nat)
    requires ResolvesAt(Fresh0(staff), moves, i, id) && ResolvesAt(Fresh0(staff), moves, j, id)
    ensures i == j
  {
    StartInv(staff);
    if i < j {
      ResolvedStays(Fresh0(staff), moves, i, j, id);
    } else if j < i {
      ResolvedStays(Fresh0(staff), moves, j, i, id);
    }
  }

  // ---------------------------------------------------------------- what a decision means

  /** A decision is taken exactly with a reason, on a difference still open, and on the right person or nobody. */
  lemma DecidedIff(db: Db, d: Decision)
    requires d.id < |db.discrepancies|
    ensures var x := db.discrepancies[d.id];
            ApplyResolve(db, d).1 == Done <==>
            && x.status.PendingInvestigation? && d.reasonGiven && x.amount != 0
            && match d.resolution
               case EmployeeDebt => x.amount < 0 && d.responsible.Some? && d.responsible.value in db.staff
               case ForgivenDebt => d.responsible.Some? && d.responsible.value in db.staff
               case StoreAbsorbed => d.responsible.None?
               case ErrorCorrected => d.responsible.None?
  {
  }

  /** Only a decided discrepancy changes, by its decision and one version; what was decided before stands. */
  lemma DecidedRow(db: Db, d: Decision)
    requires ApplyResolve(db, d).1 == Done
    ensures d.id < |db.discrepancies|
    ensures var after, x := ApplyResolve(db, d).0, db.discrepancies[d.id];
            && |after.discrepancies| == |db.discrepancies| && after.staff == db.staff
            && after.discrepancies[d.id] == Discrepancy(x.amount, Resolved, Some(d.resolution), d.responsible, x.version + 1)
            && (forall i :: 0 <= i < |db.discrepancies| && i != d.id ==> after.discrepancies[i] == db.discrepancies[i])
  {
  }

  /** The rows a decision puts on the ledger, in order: the shortage charged, and waived again where it is forgiven. */
  lemma DecisionWrites(db: Db, d: Decision)
    requires ApplyResolve(db, d).1 == Done
    ensures var amount := db.discrepancies[d.id].amount;
            var size := if amount < 0 then -amount else amount;
            ApplyResolve(db, d).0.entries
            == db.entries + match (d.resolution, d.responsible)
                            case (EmployeeDebt, Some(u)) => [Entry(u, Some(d.id), Charge, size, None)]
                            case (ForgivenDebt, Some(u)) =>
                              [Entry(u, Some(d.id), Charge, size, None), Entry(u, Some(d.id), EntryKind.Forgiveness, size, None)]
                            case _ => []
  {
  }

  /** What a decision does to what somebody owes: a debt adds the missing amount, everything else leaves it alone. */
  lemma DecisionMovesBalance(db: Db, d: Decision, u: User)
    requires ApplyResolve(db, d).1 == Done
    ensures Balance(ApplyResolve(db, d).0.entries, u)
         == Balance(db.entries, u)
            + if d.resolution.EmployeeDebt? && d.responsible == Some(u) then -db.discrepancies[d.id].amount else 0
  {
    DecidedIff(db, d);
    var rows := Inserted(db.discrepancies[d.id], d);
    TotalsAppend(db.entries, rows, u);
    if d.responsible.Some? {
      PlannedTotals(d, db.discrepancies[d.id].amount, d.responsible.value, u, d.id);
    }
  }

  /** However owners interleave, a debt is only ever made of a shortage, and of a named person's. */
  lemma DebtsAreShortages(staff: set<User>, moves: seq<Move>, id: nat)
    requires id < |Runs(Fresh0(staff), moves).db.discrepancies|
    ensures var d := Runs(Fresh0(staff), moves).db.discrepancies[id];
            d.status.Resolved? && d.resolution == Some(EmployeeDebt) ==> d.amount < 0 && d.responsible.Some?
  {
    StartInv(staff);
    RunsKeepInv(Fresh0(staff), moves);
    var db := Runs(Fresh0(staff), moves).db;
    assert LedgerOf(db.discrepancies[id], id, Written(db.entries, id));
  }

  /** A surplus never leaves a charge standing: what is charged under its decision is waived under it too. */
  lemma SurplusIsNeverCharged(staff: set<User>, moves: seq<Move>, id: nat, u: User)
    requires id < |Runs(Fresh0(staff), moves).db.discrepancies|
    requires Runs(Fresh0(staff), moves).db.discrepancies[id].amount > 0
    ensures Balance(Written(Runs(Fresh0(staff), moves).db.entries, id), u) == 0
  {
    StartInv(staff);
    RunsKeepInv(Fresh0(staff), moves);
    var db := Runs(Fresh0(staff), moves).db;
    var d := db.discrepancies[id];
    var written := Written(db.entries, id);
    assert LedgerOf(d, id, written);
    DebtsAreShortages(staff, moves, id);
    if d.status.Resolved? && d.responsible.Some? {
      PlannedTotals(Decision(id, d.resolution.value, true, d.responsible), d.amount, d.responsible.value, u, id);
    } else {
      assert written == [];
    }
  }

  /** How a repayment arrives; other entries do not. */
  predicate ArrivesRightly(x: Standalone) {
    match x.kind
    case Repayment => x.arrival.Some?
    case Deduction => x.arrival.None?
    case Forgiveness => x.arrival.None?
    case Charge => false
  }

  /** An entry on its own is made exactly with a reason, on the staff, against what is owed, once per request id. */
  lemma AddedIff(db: Db, x: Standalone)
    ensures var (after, r) := ApplyEntry(db, x);
            && (r == Done <==>
                  && x.user in db.staff && x.reasonGiven && 0 < x.amount <= Balance(db.entries, x.user) && ArrivesRightly(x)
                  && (x.clientUuid.Some? ==> forall i :: 0 <= i < |db.entries| ==> db.entries[i].clientUuid != x.clientUuid))
            && (r == Done ==>
                  && after.discrepancies == db.discrepancies && |after.entries| == |db.entries| + 1
                  && after.entries[|db.entries|] == Entry(x.user, None, x.kind, x.amount, x.clientUuid)
                  && Balance(after.entries, x.user) == Balance(db.entries, x.user) - x.amount)
            && (r != Done ==> after == db)
  {
    if ApplyEntry(db, x).1 == Done {
      var e := Entry(x.user, None, x.kind, x.amount, x.clientUuid);
      assert (db.entries + [e])[..|db.entries|] == db.entries;
    }
  }

  /**
   * The same entry sent again should be answered. It is exactly while as much is still owed once more; else the retry
   * is refused, for the bound is looked at before the request id.
   */
  lemma EntrySentAgainIsAnsweredIff(db: Db, x: Standalone)
    requires x.clientUuid.Some? && ApplyEntry(db, x).1 == Done
    ensures var after := ApplyEntry(db, x).0;
            && ApplyEntry(after, x).0 == after
            && (ApplyEntry(after, x).1 == Replayed <==> 2 * x.amount <= Balance(db.entries, x.user))
  {
    AddedIff(db, x);
    var after := ApplyEntry(db, x).0;
    assert after.entries[|db.entries|].clientUuid == Some(x.clientUuid.value);
  }

  /** Such a retry: a hundred charged, a hundred repaid, and the repayment sent again. */
  lemma RetriedRepaymentIsRefused()
    ensures var db := Db([], [Entry(0, None, Charge, 100, None)], {0});
            var x := Standalone(0, Repayment, 100, true, Some(ByCash), Some(7));
            ApplyEntry(db, x).1 == Done && ApplyEntry(ApplyEntry(db, x).0, x).1 == Refused(BadRequest)
  {
    var db := Db([], [Entry(0, None, Charge, 100, None)], {0});
    var x := Standalone(0, Repayment, 100, true, Some(ByCash), Some(7));
    assert db.entries[..0] == [] && Balance(db.entries, 0) == 100;
    AddedIff(db, x);
    AddedIff(ApplyEntry(db, x).0, x);
  }

  // ---------------------------------------------------------------- what a closing opens

  /** Every discrepancy a closing opens can be decided: some difference is there, and absorbing it is accepted. */
  lemma OpenedDiscrepancyCanBeDecided(site: Closing.Site, calls: seq<Closing.Call>, k: nat, db: Db)
    requires Channels.IsPreorder(site.labels) && k < |Closing.Run(site, Closing.Untouched, calls).discrepancies|
    ensures var amount := Closing.Run(site, Closing.Untouched, calls).discrepancies[k].amount;
            var after := db.(discrepancies := db.discrepancies + [Discrepancy(amount, PendingInvestigation, None, None, 0)]);
            && amount != 0
            && ApplyResolve(after, Decision(|db.discrepancies|, StoreAbsorbed, true, None)).1 == Done
  {
    Closing.DiscrepanciesAreTheDifferences(site, calls);
  }

  // ---------------------------------------------------------------- the service

  class DiscrepanciesService {
    var discrepancies: seq<Discrepancy>
    var entries: seq<Entry>
    var staff: set<User>

    ghost function Snapshot(): Db
      reads this
    {
      Db(discrepancies, entries, staff)
    }

    method Resolve(d: Decision) returns (r: Outcome)
      modifies this`discrepancies, this`entries
      ensures (Snapshot(), r) == ApplyResolve(old(Snapshot()), d)
    {
      if d.id >= |discrepancies| {
        return Refused(NotFound);
      }
      var found := discrepancies[d.id];
      if found.status == Resolved {
        return Refused(Conflict);
      }
      var plan := PlanResolution(d, found.amount);
      if plan.None? || (d.responsible.Some? && d.responsible.value !in staff) {
        return Refused(BadRequest);
      }
      discrepancies := discrepancies[d.id := found.(status := Resolved, resolution := Some(d.resolution),
                                                    responsible := d.responsible, version := found.version + 1)];
      if d.responsible.Some? {
        InsertPlan(plan.value, d.responsible.value, d.id);
      } else {
        assert entries + [] == entries;
      }
      return Done;
    }

    method InsertPlan(plan: seq<PlanRow>, who: User, id: nat)
      modifies this`entries
      ensures entries == old(entries) + PlannedEntries(plan, who, id)
    {
      var i := 0;
      while i < |plan|
        invariant 0 <= i <= |plan|
        invariant entries == old(entries) + PlannedEntries(plan, who, id)[..i]
      {
        entries := entries + [Entry(who, Some(id), plan[i].kind, plan[i].amount, None)];
        i := i + 1;
      }
    }

    method AddEntry(x: Standalone) returns (r: Outcome)
      modifies this`entries
      ensures (Snapshot(), r) == ApplyEntry(old(Snapshot()), x)
    {
      if x.user !in staff {
        return Refused(NotFound);
      }
      var outstanding := Balance(entries, x.user);
      if !EntryAllowed(x, outstanding) {
        return Refused(BadRequest);
      }
      if x.clientUuid.Some? && exists i :: 0 <= i < |entries| && entries[i].clientUuid == x.clientUuid {
        return Replayed;
      }
      entries := entries + [Entry(x.user, None, x.kind, x.amount, x.clientUuid)];
      return Done;
    }
  }
}
