/**
 * The guarded calls as they really run: a read of the consignment, for some a later read of its lines,
 * and later still a transaction guarded on the version and status read. Any number of clients
 * interleave, and the other calls happen in between.
 */
module ConsignmentInterleaving {
  import opened Prelude
  import opened ConsignmentLifecycle
  import opened ConsignmentModel
  import opened ConsignmentInvariant
  import opened ConsignmentRuns

  /** What a client holds between its read and its write. */
  datatype Pending = Pending(me: Company, id: nat, request: Request, row: Consignment, lines: Option<seq<Line>>)

  datatype World = World(db: Db, clients: map<nat, Pending>)

  datatype Move =
    | Begin(client: nat, me: Company, id: nat, request: Request) // read the consignment
    | Look(client: nat) // read its lines
    | Finish(client: nat) // run the guarded transaction
    | Whole(call: Call) // a call that runs in one piece

  /** reportSold and the custody confirmation also read the lines before their transaction. */
  predicate NeedsLines(r: Request) {
    r.ReportSold? || (r.Custody? && !r.send)
  }

  predicate IsReady(p: Pending) {
    NeedsLines(p.request) ==> p.lines.Some?
  }

  function Prepares(p: Pending): Prepared
    requires IsReady(p)
  {
    Prepare(p.me, p.row, if p.lines.Some? then p.lines.value else [], p.request)
  }

  /** The database after the client's transaction, and whether its guard won. */
  function Transact(db: Db, p: Pending): (Db, Outcome)
    requires IsReady(p)
  {
    match Prepares(p)
    case Stop(why) => (db, Refused(why))
    case Go(next, w) => if p.id < |db.deals| then CommitWrite(db, p.me, p.id, p.row, next, w) else (db, Refused(NotFound))
  }

  predicate Wins(w: World, m: Move) {
    && m.Finish? && m.client in w.clients && IsReady(w.clients[m.client])
    && Transact(w.db, w.clients[m.client]).1 == Done
  }

  function Next(w: World, m: Move): World {
    match m
    case Begin(client, me, id, request) =>
      if client !in w.clients && IsVisible(w.db, me, id)
      then w.(clients := w.clients[client := Pending(me, id, request, w.db.deals[id].c, None)])
      else w
    case Look(client) =>
      if client in w.clients && w.clients[client].id < |w.db.deals|
      then w.(clients := w.clients[client := w.clients[client].(lines := Some(w.db.deals[w.clients[client].id].lines))])
      else w
    case Finish(client) =>
      if client in w.clients && IsReady(w.clients[client])
      then World(Transact(w.db, w.clients[client]).0, w.clients - {client})
      else w
    case Whole(call) => w.(db := Apply(w.db, call).0)
  }

  function Runs(w: World, moves: seq<Move>): World {
    if moves == [] then w else Next(Runs(w, moves[..|moves| - 1]), moves[|moves| - 1])
  }

  // ---------------------------------------------------------------- what a pending client may rely on

  /** settleIfClear moves a status up this order without touching the version. */
  function SettleRank(s: Status): nat {
    match s
    case SoldAwaitingSettlement => 1
    case PartiallyPaid => 2
    case Settled => 3
    case ForgivenSettled => 3
    case _ => 0
  }

  /** While the version is the one read, the lines are the ones read and only settlement may have moved on. */
  ghost predicate Fresh(p: Pending, d: Deal) {
    && p.row.version <= d.c.version
    && (p.row.version == d.c.version ==>
          && d.c == p.row.(status := d.c.status)
          && (p.row.status == d.c.status || SettleRank(p.row.status) < SettleRank(d.c.status))
          && (p.lines.Some? ==> p.lines.value == d.lines))
  }

  ghost predicate Consistent(w: World) {
    forall client :: client in w.clients ==>
      w.clients[client].id < |w.db.deals| && Fresh(w.clients[client], w.db.deals[w.clients[client].id])
  }

  lemma EffectKeepsFresh(p: Pending, d: Deal, e: Effect)
    requires Fresh(p, d) && Justified(d, e)
    ensures Fresh(p, EffectOn(d, e))
  {
  }

  lemma LinesUnread(me: Company, c: Consignment, lines: seq<Line>, lines': seq<Line>, r: Request)
    requires !NeedsLines(r)
    ensures Prepare(me, c, lines, r) == Prepare(me, c, lines', r)
  {
  }

  /**
   * A guarded write that wins acts on the current consignment and, where it read them, the current
   * lines: it is the whole call made at that instant.
   */
  lemma WinnerActsOnCurrentRows(w: World, client: nat)
    requires Consistent(w) && Wins(w, Finish(client))
    ensures var p := w.clients[client];
            && p.row == w.db.deals[p.id].c
            && (NeedsLines(p.request) ==> p.lines == Some(w.db.deals[p.id].lines))
            && (Next(w, Finish(client)).db, Done) == Apply(w.db, Guarded(p.me, p.id, p.request))
  {
    var p := w.clients[client];
    var d := w.db.deals[p.id];
    assert Fresh(p, d);
    if !NeedsLines(p.request) {
      LinesUnread(p.me, d.c, d.lines, if p.lines.Some? then p.lines.value else [], p.request);
    }
  }

  lemma LoserChangesNothing(w: World, client: nat)
    requires !Wins(w, Finish(client))
    ensures Next(w, Finish(client)).db == w.db
  {
  }

  /** The whole call, if any, that a move amounts to. */
  function CallOf(w: World, m: Move): Option<Call> {
    if m.Whole? then Some(m.call)
    else if Wins(w, m) then
      var p := w.clients[m.client];
      Some(Guarded(p.me, p.id, p.request))
    else None
  }

  lemma MoveIsCall(w: World, m: Move)
    requires Consistent(w)
    ensures Next(w, m).db == match CallOf(w, m) case Some(call) => Apply(w.db, call).0 case None => w.db
  {
    if m.Finish? {
      if Wins(w, m) {
        WinnerActsOnCurrentRows(w, m.client);
      } else {
        LoserChangesNothing(w, m.client);
      }
    }
  }

  lemma NextKeepsConsistent(w: World, m: Move)
    requires Consistent(w)
    ensures Consistent(Next(w, m))
  {
    MoveIsCall(w, m);
    var after := Next(w, m);
    forall client | client in after.clients
      ensures after.clients[client].id < |after.db.deals|
      ensures Fresh(after.clients[client], after.db.deals[after.clients[client].id])
    {
      if client in w.clients {
        var p := w.clients[client];
        if CallOf(w, m).Some? {
          var call := CallOf(w, m).value;
          ApplyIsEffect(w.db, call, p.id);
          EffectKeepsFresh(p, w.db.deals[p.id], EffectOf(w.db, call, p.id));
        }
      }
    }
  }

  // ---------------------------------------------------------------- whole interleaved runs

  /** The calls of an interleaved run, in the order their effects took place. */
  function Linearised(w: World, moves: seq<Move>): seq<Call> {
    if moves == [] then []
    else
      var n := |moves| - 1;
      var front := Linearised(w, moves[..n]);
      match CallOf(Runs(w, moves[..n]), moves[n])
      case Some(call) => front + [call]
      case None => front
  }

  /** Every interleaved run reaches a database that the atomic machine reaches with the same calls. */
  lemma {:induction false} InterleavingRefinesAtomic(w: World, moves: seq<Move>)
    requires w.clients == map[]
    ensures Consistent(Runs(w, moves))
    ensures Runs(w, moves).db == Run(w.db, Linearised(w, moves))
  {
    if moves != [] {
      var n := |moves| - 1;
      InterleavingRefinesAtomic(w, moves[..n]);
      var before := Runs(w, moves[..n]);
      NextKeepsConsistent(before, moves[n]);
      MoveIsCall(before, moves[n]);
      if CallOf(before, moves[n]).Some? {
        RunAppend(w.db, Linearised(w, moves[..n]), CallOf(before, moves[n]).value);
      }
    }
  }

  /** So every invariant of the atomic machine holds under interleaving. */
  lemma InterleavingKeepsInv(w: World, moves: seq<Move>)
    requires w.clients == map[] && Init(w.db)
    ensures Inv(Runs(w, moves).db)
  {
    InterleavingRefinesAtomic(w, moves);
    InitInv(w.db);
    RunKeepsInv(w.db, Linearised(w, moves));
  }

  // ---------------------------------------------------------------- each version is won at most once

  predicate WinsAt(w: World, moves: seq<Move>, i: nat, id: nat) {
    && i < |moves|
    && Wins(Runs(w, moves[..i]), moves[i])
    && Runs(w, moves[..i]).clients[moves[i].client].id == id
  }

  /** The version the winner of move i had read. */
  function VersionAt(w: World, moves: seq<Move>, i: nat, id: nat): nat
    requires WinsAt(w, moves, i, id)
  {
    Runs(w, moves[..i]).clients[moves[i].client].row.version
  }

  lemma VersionsOnlyGrow(w: World, m: Move, id: nat)
    requires Consistent(w) && id < |w.db.deals|
    ensures id < |Next(w, m).db.deals|
    ensures w.db.deals[id].c.version <= Next(w, m).db.deals[id].c.version
    ensures Wins(w, m) && w.clients[m.client].id == id ==>
              w.clients[m.client].row.version == w.db.deals[id].c.version < Next(w, m).db.deals[id].c.version
  {
    MoveIsCall(w, m);
    if CallOf(w, m).Some? {
      ApplyIsEffect(w.db, CallOf(w, m).value, id);
    }
    if Wins(w, m) {
      WinnerActsOnCurrentRows(w, m.client);
    }
  }

  lemma RunsStayConsistent(w: World, moves: seq<Move>)
    requires w.clients == map[]
    ensures Consistent(Runs(w, moves))
  {
    InterleavingRefinesAtomic(w, moves);
  }

  /** The version of a row once it stands, nothing before. */
  function VersionOf(w: World, id: nat): int {
    if id < |w.db.deals| then w.db.deals[id].c.version else -1
  }

  lemma RunsNext(w: World, moves: seq<Move>, k: nat)
    requires k < |moves|
    ensures Runs(w, moves[..k + 1]) == Next(Runs(w, moves[..k]), moves[k])
  {
    assert moves[..k + 1][..k] == moves[..k];
  }

  /** The version of row id after the first k moves. */
  function VersionAfter(w: World, moves: seq<Move>, id: nat, k: nat): int {
    VersionOf(Runs(w, if k <= |moves| then moves[..k] else moves), id)
  }

  lemma VersionStep(w: World, moves: seq<Move>, id: nat, k: nat)
    requires w.clients == map[] && k < |moves|
    ensures VersionAfter(w, moves, id, k) <= VersionAfter(w, moves, id, k + 1)
    ensures WinsAt(w, moves, k, id) ==>
              VersionAt(w, moves, k, id) == VersionAfter(w, moves, id, k) < VersionAfter(w, moves, id, k + 1)
  {
    RunsStayConsistent(w, moves[..k]);
    RunsNext(w, moves, k);
    OneMove(Runs(w, moves[..k]), moves[k], id);
  }

  lemma OneMove(w: World, m: Move, id: nat)
    requires Consistent(w)
    ensures VersionOf(w, id) <= VersionOf(Next(w, m), id)
    ensures Wins(w, m) && w.clients[m.client].id == id ==>
              w.clients[m.client].row.version == VersionOf(w, id) < VersionOf(Next(w, m), id)
  {
    if id < |w.db.deals| {
      VersionsOnlyGrow(w, m, id);
    }
  }

  /** Two winning writes on one consignment read different versions, the later one the greater. */
  lemma EachVersionWonOnce(w: World, moves: seq<Move>, i: nat, j: nat, id: nat)
    requires w.clients == map[] && i < j && WinsAt(w, moves, i, id) && WinsAt(w, moves, j, id)
    ensures VersionAt(w, moves, i, id) < VersionAt(w, moves, j, id)
  {
    VersionsRise(w, moves, id, i + 1, j);
    VersionStep(w, moves, id, i);
    VersionStep(w, moves, id, j);
  }

  lemma VersionsRise(w: World, moves: seq<Move>, id: nat, i: nat, j: nat)
    requires w.clients == map[] && i <= j <= |moves|
    ensures VersionAfter(w, moves, id, i) <= VersionAfter(w, moves, id, j)
  {
    var f := (k: nat) => VersionAfter(w, moves, id, k);
    forall k: nat | i <= k < j
      ensures f(k) <= f(k + 1)
    {
      VersionStep(w, moves, id, k);
    }
    NeverFalls(f, i, j);
  }
}
