/**
 * Counting and signing off one day of one branch: recordCount and close of
 * src/closing/closing.service.ts, with the discrepancies a difference opens.
 */
module Closing {
  import opened Prelude
  import opened Channels
  import opened DayCash

  datatype Status = Counting | Counted | Locked

  /** A closing_channel_counts row. Its key is its channel and account; its id is its position. */
  datatype CountRow = CountRow(
    key: Key, sums: Sums, expected: int, counted: Option<int>, difference: Option<int>, isSkipped: bool)

  datatype Sheet = Sheet(status: Status, version: nat, expectedCash: int, countedCash: int, difference: int)

  datatype Discrepancy = Discrepancy(row: nat, amount: int)

  datatype State = State(sheet: Option<Sheet>, rows: seq<CountRow>, discrepancies: seq<Discrepancy>)

  /** Where and when: the branch, the day and the label order are fixed for a run. */
  datatype Site = Site(branch: Branch, day: Day, labels: LabelOrder)

  /** Each call sees the records and accounts as they are when it runs. */
  datatype Call =
    | RecordCount(channel: Channel, account: Option<AccountId>, counted: Option<int>, skip: bool, reasonGiven: bool,
                  tables: Tables, accounts: seq<AccountRow>)
    | Close(countedCash: Option<int>, tables: Tables, accounts: seq<AccountRow>)

  function ChannelsOf(site: Site, tables: Tables, accounts: seq<AccountRow>): seq<ChannelRow> {
    Build(ChannelMovements(tables, site.branch, site.day), accounts, site.labels)
  }

  // ---------------------------------------------------------------- rows by key

  /** Position of the row with this key, or the number of rows. */
  function IndexOf(rows: seq<CountRow>, k: Key): (i: nat)
    ensures i <= |rows|
    ensures i < |rows| ==> rows[i].key == k
    ensures forall j :: 0 <= j < i ==> rows[j].key != k
  {
    if rows == [] then 0 else if rows[0].key == k then 0 else 1 + IndexOf(rows[1..], k)
  }

  function Upsert(rows: seq<CountRow>, r: CountRow): seq<CountRow> {
    var i := IndexOf(rows, r.key);
    if i < |rows| then rows[i := r] else rows + [r]
  }

  function DifferenceOf(counted: Option<int>, expected: int): Option<int> {
    if counted.None? then None else Some(counted.value - expected)
  }

  function FindChannel(chs: seq<ChannelRow>, k: Key): Option<ChannelRow> {
    if chs == [] then None else if chs[0].key == k then Some(chs[0]) else FindChannel(chs[1..], k)
  }

  /** The recorded count of a channel, if any: (counted, skipped). */
  function Recorded(rows: seq<CountRow>, k: Key): (Option<int>, bool) {
    var i := IndexOf(rows, k);
    if i < |rows| then (rows[i].counted, rows[i].isSkipped) else (None, false)
  }

  /** countingComplete over the open view. */
  predicate IsComplete(chs: seq<ChannelRow>, rows: seq<CountRow>) {
    forall i :: 0 <= i < |chs| && !IsUnattributed(chs[i].key) ==>
      Recorded(rows, chs[i].key).0.Some? || Recorded(rows, chs[i].key).1
  }

  // ---------------------------------------------------------------- recordCount

  function ApplyRecord(site: Site, s: State, c: Call): (State, Outcome)
    requires c.RecordCount?
  {
    if c.skip && (c.counted.Some? || !c.reasonGiven) then (s, Refused(BadRequest))
    else if !c.skip && c.counted.None? then (s, Refused(BadRequest))
    else if c.channel == Account && c.account.None? then (s, Refused(BadRequest))
    else if c.channel == Cash && c.account.Some? then (s, Refused(BadRequest))
    else if s.sheet.Some? && s.sheet.value.status == Locked then (s, Refused(Conflict))
    else
      var chs := ChannelsOf(site, c.tables, c.accounts);
      match FindChannel(chs, Key(c.channel, c.account))
      case None => (s, Refused(NotFound))
      case Some(target) =>
        if IsUnattributed(target.key) then (s, Refused(BadRequest))
        else
          (WriteCount(s, chs, target, c.counted, c.skip), Done)
  }

  /** The writes of recordCount: the sheet if new, the channel's row, then the status. */
  function WriteCount(s: State, chs: seq<ChannelRow>, target: ChannelRow, counted: Option<int>, skip: bool): State {
    var sheet := if s.sheet.Some? then s.sheet.value else Sheet(Counting, 0, 0, 0, 0);
    var rows := Upsert(s.rows, Frozen(target, counted, skip));
    var status := if IsComplete(chs, rows) then Counted else Counting;
    s.(sheet := Some(sheet.(status := status, version := sheet.version + 1)), rows := rows)
  }

  // ---------------------------------------------------------------- close

  function Frozen(ch: ChannelRow, counted: Option<int>, skipped: bool): CountRow {
    CountRow(ch.key, ch.sums, ch.expected, counted, DifferenceOf(counted, ch.expected), skipped)
  }

  function FreezeOne(rows: seq<CountRow>, ch: ChannelRow): seq<CountRow> {
    var (counted, skipped) := Recorded(rows, ch.key);
    Upsert(rows, Frozen(ch, counted, skipped))
  }

  function Freeze(rows: seq<CountRow>, chs: seq<ChannelRow>): seq<CountRow> {
    if chs == [] then rows else FreezeOne(Freeze(rows, chs[..|chs| - 1]), chs[|chs| - 1])
  }

  /** opensDiscrepancy of src/closing/debt-rules.ts. */
  predicate Opens(r: CountRow) {
    !r.isSkipped && r.counted.Some? && r.difference.Some? && r.difference.value != 0
  }

  predicate HasDiscrepancy(ds: seq<Discrepancy>, row: nat) {
    exists i :: 0 <= i < |ds| && ds[i].row == row
  }

  /** The loop over the first n frozen rows. */
  function Opened(rows: seq<CountRow>, n: nat, ds: seq<Discrepancy>): seq<Discrepancy>
    requires n <= |rows|
  {
    if n == 0 then ds
    else
      var before := Opened(rows, n - 1, ds);
      var r := rows[n - 1];
      if Opens(r) && !HasDiscrepancy(before, n - 1) then before + [Discrepancy(n - 1, r.difference.value)] else before
  }

  /** The cash count already on record, unless it was skipped. */
  function RecordedCash(rows: seq<CountRow>): Option<int> {
    var (counted, skipped) := Recorded(rows, CashKey);
    if skipped then None else counted
  }

  function ApplyClose(site: Site, s: State, c: Call): (State, Outcome)
    requires c.Close?
  {
    if s.sheet.Some? && s.sheet.value.status == Locked then (s, Refused(Conflict))
    else
      var recorded := RecordedCash(s.rows);
      if recorded.Some? && c.countedCash.Some? && c.countedCash != recorded then (s, Refused(Conflict))
      else if recorded.None? && c.countedCash.None? then (s, Refused(BadRequest))
      else
        (WriteLock(s, ChannelsOf(site, c.tables, c.accounts), ExpectedCash(c.tables, site.branch, site.day),
                   if recorded.Some? then recorded.value else c.countedCash.value),
         Done)
  }

  /** The transaction of close: the locked sheet, the frozen rows and the discrepancies they open. */
  function WriteLock(s: State, chs: seq<ChannelRow>, expected: int, counted: int): State {
    var version := if s.sheet.Some? then s.sheet.value.version + 1 else 0;
    var rows := Freeze(s.rows, chs);
    State(Some(Sheet(Locked, version, expected, counted, counted - expected)), rows,
          Opened(rows, |rows|, s.discrepancies))
  }

  function Apply(site: Site, s: State, c: Call): (State, Outcome) {
    match c
    case RecordCount(_, _, _, _, _, _, _) => ApplyRecord(site, s, c)
    case Close(_, _, _) => ApplyClose(site, s, c)
  }

  const Untouched := State(None, [], [])

  function Run(site: Site, s: State, calls: seq<Call>): State {
    if calls == [] then s else Apply(site, Run(site, s, calls[..|calls| - 1]), calls[|calls| - 1]).0
  }

  // ---------------------------------------------------------------- the invariant

  ghost predicate RowOk(r: CountRow) {
    && r.expected == Expected(r.sums)
    && r.difference == DifferenceOf(r.counted, r.expected)
    && (r.isSkipped ==> r.counted.None?)
    && (IsUnattributed(r.key) ==> r.counted.None? && !r.isSkipped)
  }

  ghost predicate RowsOk(rows: seq<CountRow>) {
    && (forall i :: 0 <= i < |rows| ==> RowOk(rows[i]))
    && (forall i, j :: 0 <= i < j < |rows| ==> rows[i].key != rows[j].key)
  }

  /** Exactly one discrepancy, of the row's difference, for each row that opens one; none for any other. */
  ghost predicate DiscrepanciesMatch(rows: seq<CountRow>, n: nat, ds: seq<Discrepancy>)
    requires n <= |rows|
  {
    && (forall k :: 0 <= k < |ds| ==>
          ds[k].row < n && Opens(rows[ds[k].row]) && rows[ds[k].row].difference == Some(ds[k].amount))
    && (forall i :: 0 <= i < n && Opens(rows[i]) ==> HasDiscrepancy(ds, i))
    && (forall k, l :: 0 <= k < l < |ds| ==> ds[k].row != ds[l].row)
  }

  /** The signed-off cash figures are those of the cash row. */
  ghost predicate CashOk(sheet: Sheet, rows: seq<CountRow>) {
    && sheet.difference == sheet.countedCash - sheet.expectedCash
    && IndexOf(rows, CashKey) < |rows|
    && sheet.expectedCash == rows[IndexOf(rows, CashKey)].expected
    && (rows[IndexOf(rows, CashKey)].counted.Some? ==>
          rows[IndexOf(rows, CashKey)].counted.value == sheet.countedCash)
  }

  ghost predicate Inv(s: State) {
    && RowsOk(s.rows)
    && (s.sheet.None? ==> s.rows == [])
    && (s.sheet.Some? && s.sheet.value.status == Locked ==>
          DiscrepanciesMatch(s.rows, |s.rows|, s.discrepancies) && CashOk(s.sheet.value, s.rows))
    && (s.sheet.None? || s.sheet.value.status != Locked ==> s.discrepancies == [])
  }

  lemma UpsertSpec(rows: seq<CountRow>, r: CountRow)
    requires RowsOk(rows) && RowOk(r)
    ensures RowsOk(Upsert(rows, r))
    ensures IndexOf(Upsert(rows, r), r.key) < |Upsert(rows, r)|
    ensures Upsert(rows, r)[IndexOf(Upsert(rows, r), r.key)] == r
    ensures forall k :: k != r.key ==> Recorded(Upsert(rows, r), k) == Recorded(rows, k)
    ensures forall x :: x in rows && x.key != r.key ==> x in Upsert(rows, r)
  {
    var out, i := Upsert(rows, r), IndexOf(rows, r.key);
    assert out[i] == r;
    var j := IndexOf(out, r.key);
    assert j == i;
    forall k | k != r.key
      ensures Recorded(out, k) == Recorded(rows, k)
    {
      var a, b := IndexOf(rows, k), IndexOf(out, k);
      if a < |rows| {
        assert out[a] == rows[a];
        assert a == b;
      }
    }
    forall x | x in rows && x.key != r.key
      ensures x in out
    {
      var k :| 0 <= k < |rows| && rows[k] == x;
      assert out[k] == x;
    }
  }

  /** What the channel rows of a day satisfy. */
  ghost predicate ChannelsOk(chs: seq<ChannelRow>) {
    && DistinctRows(chs)
    && (forall i :: 0 <= i < |chs| ==> chs[i].expected == Expected(chs[i].sums))
  }

  lemma BuiltChannelsOk(ms: seq<Movement>, accounts: seq<AccountRow>, le: LabelOrder)
    requires IsPreorder(le)
    ensures ChannelsOk(Build(ms, accounts, le))
  {
    var chs := Build(ms, accounts, le);
    KeysAreUniqueAndSorted(ms, accounts, le);
    forall i | 0 <= i < |chs|
      ensures chs[i].expected == Expected(chs[i].sums)
    {
      RowsAreTheBuckets(ms, accounts, le, chs[i].key);
      assert chs[i] in chs;
    }
  }

  lemma {:induction false} FoundChannel(chs: seq<ChannelRow>, k: Key)
    ensures FindChannel(chs, k).Some? ==> FindChannel(chs, k).value in chs && FindChannel(chs, k).value.key == k
  {
    if chs != [] {
      FoundChannel(chs[1..], k);
    }
  }

  lemma RecordedOk(rows: seq<CountRow>, ch: ChannelRow)
    requires RowsOk(rows) && ch.expected == Expected(ch.sums)
    ensures RowOk(Frozen(ch, Recorded(rows, ch.key).0, Recorded(rows, ch.key).1))
  {
  }

  /** Freezing carries every count over and gives each channel of the day its final figures. */
  lemma {:induction false} FreezeSpec(rows: seq<CountRow>, chs: seq<ChannelRow>, n: nat)
    requires RowsOk(rows) && ChannelsOk(chs) && n <= |chs|
    ensures RowsOk(Freeze(rows, chs[..n]))
    ensures forall k :: Recorded(Freeze(rows, chs[..n]), k) == Recorded(rows, k)
    ensures forall i :: 0 <= i < n ==>
              Frozen(chs[i], Recorded(rows, chs[i].key).0, Recorded(rows, chs[i].key).1) in Freeze(rows, chs[..n])
  {
    if n == 0 {
      assert chs[..0] == [];
    } else {
      FreezeSpec(rows, chs, n - 1);
      var front, ch := Freeze(rows, chs[..n - 1]), chs[n - 1];
      assert chs[..n][..n - 1] == chs[..n - 1];
      RecordedOk(front, ch);
      var r := Frozen(ch, Recorded(front, ch.key).0, Recorded(front, ch.key).1);
      UpsertSpec(front, r);
      assert r in Freeze(rows, chs[..n]);
    }
  }

  lemma HasAppend(ds: seq<Discrepancy>, d: Discrepancy, row: nat)
    ensures HasDiscrepancy(ds + [d], row) <==> HasDiscrepancy(ds, row) || d.row == row
  {
    var after := ds + [d];
    assert after[|ds|] == d;
    if HasDiscrepancy(ds, row) {
      var i :| 0 <= i < |ds| && ds[i].row == row;
      assert after[i].row == row;
    }
  }

  lemma {:induction false} OpenedMatches(rows: seq<CountRow>, n: nat)
    requires n <= |rows|
    ensures DiscrepanciesMatch(rows, n, Opened(rows, n, []))
  {
    if n > 0 {
      OpenedMatches(rows, n - 1);
      var before := Opened(rows, n - 1, []);
      assert !HasDiscrepancy(before, n - 1);
      if Opens(rows[n - 1]) {
        var d := Discrepancy(n - 1, rows[n - 1].difference.value);
        assert Opened(rows, n, []) == before + [d];
        forall i | 0 <= i < n && Opens(rows[i])
          ensures HasDiscrepancy(before + [d], i)
        {
          HasAppend(before, d, i);
        }
      }
    }
  }

  lemma RowAtIndex(rows: seq<CountRow>, r: CountRow)
    requires RowsOk(rows) && r in rows
    ensures IndexOf(rows, r.key) < |rows| && rows[IndexOf(rows, r.key)] == r
  {
    var k :| 0 <= k < |rows| && rows[k] == r;
  }

  lemma RecordKeepsInv(site: Site, s: State, c: Call)
    requires IsPreorder(site.labels) && Inv(s) && c.RecordCount?
    ensures Inv(ApplyRecord(site, s, c).0)
  {
    if ApplyRecord(site, s, c).1 == Done {
      var chs := ChannelsOf(site, c.tables, c.accounts);
      var k := Key(c.channel, c.account);
      BuiltChannelsOk(ChannelMovements(c.tables, site.branch, site.day), c.accounts, site.labels);
      FoundChannel(chs, k);
      var target := FindChannel(chs, k).value;
      UpsertSpec(s.rows, Frozen(target, c.counted, c.skip));
    }
  }

  /** What a sign-off leaves: frozen rows, matching discrepancies, and cash figures that agree with the cash row. */
  lemma CloseSpec(site: Site, s: State, c: Call)
    requires IsPreorder(site.labels) && Inv(s) && c.Close? && ApplyClose(site, s, c).1 == Done
    ensures var s' := ApplyClose(site, s, c).0;
            var chs := ChannelsOf(site, c.tables, c.accounts);
            && Inv(s') && s'.sheet.value.status == Locked
            && (forall k :: Recorded(s'.rows, k) == Recorded(s.rows, k))
            && (forall i :: 0 <= i < |chs| ==>
                  Frozen(chs[i], Recorded(s.rows, chs[i].key).0, Recorded(s.rows, chs[i].key).1) in s'.rows)
  {
    CloseWrites(site, s, c);
    DayChannels(site, c.tables, c.accounts);
    LockSpec(s, ChannelsOf(site, c.tables, c.accounts), ExpectedCash(c.tables, site.branch, site.day), SignedFor(s, c));
  }

  /** The cash figure a sign-off goes by. */
  function SignedFor(s: State, c: Call): int
    requires c.Close?
  {
    var recorded := RecordedCash(s.rows);
    if recorded.Some? then recorded.value else if c.countedCash.Some? then c.countedCash.value else 0
  }

  lemma CloseWrites(site: Site, s: State, c: Call)
    requires Inv(s) && c.Close? && ApplyClose(site, s, c).1 == Done
    ensures s.discrepancies == []
    ensures ApplyClose(site, s, c).0
         == WriteLock(s, ChannelsOf(site, c.tables, c.accounts), ExpectedCash(c.tables, site.branch, site.day), SignedFor(s, c))
  {
  }

  lemma DayChannels(site: Site, tables: Tables, accounts: seq<AccountRow>)
    requires IsPreorder(site.labels)
    ensures var chs := ChannelsOf(site, tables, accounts);
            ChannelsOk(chs) && chs != [] && chs[0].key == CashKey && chs[0].expected == ExpectedCash(tables, site.branch, site.day)
  {
    BuiltChannelsOk(ChannelMovements(tables, site.branch, site.day), accounts, site.labels);
    ExpectedCashIsTheCashRow(tables, site.branch, site.day, accounts, site.labels);
  }

  /** The same of the transaction, whatever the channels. */
  lemma LockSpec(s: State, chs: seq<ChannelRow>, expected: int, counted: int)
    requires Inv(s) && s.discrepancies == [] && ChannelsOk(chs)
    requires chs != [] && chs[0].key == CashKey && chs[0].expected == expected
    requires RecordedCash(s.rows).Some? ==> RecordedCash(s.rows).value == counted
    ensures var s' := WriteLock(s, chs, expected, counted);
            && Inv(s') && s'.sheet.value.status == Locked
            && (forall k :: Recorded(s'.rows, k) == Recorded(s.rows, k))
            && (forall i :: 0 <= i < |chs| ==>
                  Frozen(chs[i], Recorded(s.rows, chs[i].key).0, Recorded(s.rows, chs[i].key).1) in s'.rows)
  {
    var s' := WriteLock(s, chs, expected, counted);
    FreezeSpec(s.rows, chs, |chs|);
    assert chs[..|chs|] == chs;
    OpenedMatches(s'.rows, |s'.rows|);
    var cash := Frozen(chs[0], Recorded(s.rows, CashKey).0, Recorded(s.rows, CashKey).1);
    assert cash in s'.rows;
    RowAtIndex(s'.rows, cash);
    assert cash.isSkipped ==> cash.counted.None?;
  }

  lemma ApplyKeepsInv(site: Site, s: State, c: Call)
    requires IsPreorder(site.labels) && Inv(s)
    ensures Inv(Apply(site, s, c).0)
  {
    if c.RecordCount? {
      RecordKeepsInv(site, s, c);
    } else if ApplyClose(site, s, c).1 == Done {
      CloseSpec(site, s, c);
    }
  }

  lemma {:induction false} RunKeepsInv(site: Site, s: State, calls: seq<Call>)
    requires IsPreorder(site.labels) && Inv(s)
    ensures Inv(Run(site, s, calls))
  {
    if calls != [] {
      RunKeepsInv(site, s, calls[..|calls| - 1]);
      ApplyKeepsInv(site, Run(site, s, calls[..|calls| - 1]), calls[|calls| - 1]);
    }
  }

  // ---------------------------------------------------------------- over every run

  predicate IsLocked(s: State) {
    s.sheet.Some? && s.sheet.value.status == Locked
  }

  /** Locked is absorbing: no later call changes anything. */
  lemma {:induction false} LockedIsAbsorbing(site: Site, s: State, calls: seq<Call>)
    requires IsLocked(s)
    ensures Run(site, s, calls) == s
  {
    if calls != [] {
      LockedIsAbsorbing(site, s, calls[..|calls| - 1]);
    }
  }

  /** Each channel row explains itself: signed components, count minus expected, and no count when skipped. */
  lemma EveryRowAddsUp(site: Site, calls: seq<Call>, i: nat)
    requires IsPreorder(site.labels) && i < |Run(site, Untouched, calls).rows|
    ensures var r := Run(site, Untouched, calls).rows[i];
            && r.expected == Expected(r.sums)
            && (r.counted.Some? <==> r.difference.Some?)
            && (r.counted.Some? ==> r.difference.value == r.counted.value - r.expected)
            && (r.isSkipped ==> r.counted.None?)
            && (IsUnattributed(r.key) ==> r.counted.None? && !r.isSkipped)
  {
    RunKeepsInv(site, Untouched, calls);
    assert RowOk(Run(site, Untouched, calls).rows[i]);
  }

  /** A locked closing has exactly one discrepancy, of the difference, per counted row that is out, and no other. */
  lemma DiscrepanciesAreTheDifferences(site: Site, calls: seq<Call>)
    requires IsPreorder(site.labels)
    ensures var s := Run(site, Untouched, calls);
            if IsLocked(s) then DiscrepanciesMatch(s.rows, |s.rows|, s.discrepancies) else s.discrepancies == []
  {
    RunKeepsInv(site, Untouched, calls);
  }

  /**
   * A cash difference signed off at close does not always become a discrepancy: it does exactly when, before the
   * call, a cash count was on record rather than given at sign-off. Holds for every sign-off of every run.
   */
  lemma CashDifferenceOpensIffCounted(site: Site, calls: seq<Call>, c: Call)
    requires IsPreorder(site.labels) && c.Close? && ApplyClose(site, Run(site, Untouched, calls), c).1 == Done
    ensures var s := Run(site, Untouched, calls);
            var s' := ApplyClose(site, s, c).0;
            var cash := IndexOf(s'.rows, CashKey);
            && cash < |s'.rows|
            && s'.sheet.value.expectedCash == s'.rows[cash].expected
            && (HasDiscrepancy(s'.discrepancies, cash) <==> s'.sheet.value.difference != 0 && RecordedCash(s.rows).Some?)
  {
    var s := Run(site, Untouched, calls);
    RunKeepsInv(site, Untouched, calls);
    CloseSpec(site, s, c);
    var s' := ApplyClose(site, s, c).0;
    assert Recorded(s'.rows, CashKey) == Recorded(s.rows, CashKey);
    assert RowOk(s'.rows[IndexOf(s'.rows, CashKey)]);
  }

  /** Such a sign-off: nobody counted anything, n is given at sign-off; the difference is recorded and nobody is asked. */
  lemma UncountedDifferenceOpensNothing(site: Site, n: int, tables: Tables, accounts: seq<AccountRow>)
    requires IsPreorder(site.labels)
    ensures var s := Apply(site, Untouched, Close(Some(n), tables, accounts)).0;
            && IsLocked(s) && s.sheet.value.difference == n - ExpectedCash(tables, site.branch, site.day)
            && s.discrepancies == []
  {
    var c := Close(Some(n), tables, accounts);
    CloseSpec(site, Untouched, c);
    var s := ApplyClose(site, Untouched, c).0;
    assert s.discrepancies == [] by {
      if s.discrepancies != [] {
        UncountedRow(s, s.discrepancies[0].row);
      }
    }
  }

  lemma UncountedRow(s: State, i: nat)
    requires RowsOk(s.rows) && i < |s.rows| && (forall k :: Recorded(s.rows, k) == (None, false))
    ensures !Opens(s.rows[i])
  {
    RowAtIndex(s.rows, s.rows[i]);
    assert Recorded(s.rows, s.rows[i].key).0 == s.rows[i].counted;
  }

  // ---------------------------------------------------------------- what one call does

  /** What a count sheet entry says: a figure, or a skip with its reason. */
  predicate IsEntry(c: Call)
    requires c.RecordCount?
  {
    && (if c.skip then c.counted.None? && c.reasonGiven else c.counted.Some?)
    && (if c.channel == Cash then c.account.None? else c.account.Some?)
  }

  ghost predicate HasChannel(site: Site, c: Call)
    requires c.RecordCount?
  {
    exists ch :: ch in ChannelsOf(site, c.tables, c.accounts) && ch.key == Key(c.channel, c.account)
  }

  /** An entry is recorded exactly when it is one, the day is not locked, and the day has the channel. */
  lemma RecordedIff(site: Site, s: State, c: Call)
    requires c.RecordCount?
    ensures ApplyRecord(site, s, c).1 == Done <==> IsEntry(c) && !IsLocked(s) && HasChannel(site, c)
    ensures ApplyRecord(site, s, c).1 != Done ==> ApplyRecord(site, s, c).0 == s
  {
    FoundIff(ChannelsOf(site, c.tables, c.accounts), Key(c.channel, c.account));
  }

  lemma {:induction false} FoundIff(chs: seq<ChannelRow>, k: Key)
    ensures FindChannel(chs, k).Some? <==> exists ch :: ch in chs && ch.key == k
    ensures FindChannel(chs, k).Some? ==> FindChannel(chs, k).value in chs && FindChannel(chs, k).value.key == k
  {
    if chs != [] {
      FoundIff(chs[1..], k);
      assert chs == [chs[0]] + chs[1..];
    }
  }

  /** Every channel of the day but the unattributed bucket has a figure or a skip on the sheet. */
  ghost predicate IsAccountedFor(site: Site, c: Call, rows: seq<CountRow>)
    requires c.RecordCount?
  {
    forall ch :: ch in ChannelsOf(site, c.tables, c.accounts) && ch.key != Key(Account, None) ==>
      exists r :: r in rows && r.key == ch.key && (r.counted.Some? || r.isSkipped)
  }

  /**
   * What an entry leaves: its channel's row with the figure or the skip against what is expected now, every other
   * channel as it was, and a day that is counted exactly when every channel is accounted for.
   */
  lemma RecordedSheet(site: Site, s: State, c: Call)
    requires IsPreorder(site.labels) && Inv(s) && c.RecordCount? && ApplyRecord(site, s, c).1 == Done
    ensures var s', key := ApplyRecord(site, s, c).0, Key(c.channel, c.account);
            && s'.sheet.Some? && s'.discrepancies == s.discrepancies
            && s'.sheet.value.version == (if s.sheet.Some? then s.sheet.value.version + 1 else 1)
            && (s'.sheet.value.status == Counted <==> IsAccountedFor(site, c, s'.rows))
            && (s'.sheet.value.status == Counted || s'.sheet.value.status == Counting)
            && (forall k :: k != key ==> Recorded(s'.rows, k) == Recorded(s.rows, k))
            && exists ch :: ch in ChannelsOf(site, c.tables, c.accounts) && ch.key == key
                 && CountRow(key, ch.sums, ch.expected, c.counted, DifferenceOf(c.counted, ch.expected), c.skip) in s'.rows
  {
    var chs := ChannelsOf(site, c.tables, c.accounts);
    BuiltChannelsOk(ChannelMovements(c.tables, site.branch, site.day), c.accounts, site.labels);
    FoundIff(chs, Key(c.channel, c.account));
    var ch := FindChannel(chs, Key(c.channel, c.account)).value;
    RecordKeepsInv(site, s, c);
    UpsertSpec(s.rows, Frozen(ch, c.counted, c.skip));
    CompleteIff(chs, ApplyRecord(site, s, c).0.rows);
  }

  lemma CompleteIff(chs: seq<ChannelRow>, rows: seq<CountRow>)
    requires RowsOk(rows)
    ensures IsComplete(chs, rows) <==>
            forall ch :: ch in chs && ch.key != Key(Account, None) ==>
              exists r :: r in rows && r.key == ch.key && (r.counted.Some? || r.isSkipped)
  {
    forall ch | ch in chs
      ensures (Recorded(rows, ch.key).0.Some? || Recorded(rows, ch.key).1)
         <==> exists r :: r in rows && r.key == ch.key && (r.counted.Some? || r.isSkipped)
    {
      RecordedIs(rows, ch.key);
    }
    if IsComplete(chs, rows) {
      forall ch | ch in chs && ch.key != Key(Account, None)
        ensures exists r :: r in rows && r.key == ch.key && (r.counted.Some? || r.isSkipped)
      {
        var i :| 0 <= i < |chs| && chs[i] == ch;
        assert Recorded(rows, ch.key).0.Some? || Recorded(rows, ch.key).1;
      }
    }
  }

  lemma RecordedIs(rows: seq<CountRow>, k: Key)
    requires RowsOk(rows)
    ensures (Recorded(rows, k).0.Some? || Recorded(rows, k).1)
       <==> exists r :: r in rows && r.key == k && (r.counted.Some? || r.isSkipped)
  {
    if r :| r in rows && r.key == k && (r.counted.Some? || r.isSkipped) {
      RowAtIndex(rows, r);
    }
    var i := IndexOf(rows, k);
    if i < |rows| {
      assert rows[i] in rows && rows[i].key == k;
    }
  }

  /** A day is signed off exactly once, on one cash figure: the count on record, or the one given. */
  lemma ClosedIff(site: Site, s: State, c: Call)
    requires c.Close?
    ensures ApplyClose(site, s, c).1 == Done <==>
            && !IsLocked(s)
            && (RecordedCash(s.rows).Some? || c.countedCash.Some?)
            && (RecordedCash(s.rows).Some? && c.countedCash.Some? ==> RecordedCash(s.rows) == c.countedCash)
    ensures ApplyClose(site, s, c).1 != Done ==> ApplyClose(site, s, c).0 == s
    ensures ApplyClose(site, s, c).1 == Done ==>
              var s' := ApplyClose(site, s, c).0;
              && IsLocked(s')
              && s'.sheet.value.expectedCash == ExpectedCash(c.tables, site.branch, site.day)
              && Some(s'.sheet.value.countedCash) == (if RecordedCash(s.rows).Some? then RecordedCash(s.rows) else c.countedCash)
              && s'.sheet.value.difference == s'.sheet.value.countedCash - s'.sheet.value.expectedCash
              && s'.sheet.value.version == (if s.sheet.Some? then s.sheet.value.version + 1 else 0)
  {
  }

  // ---------------------------------------------------------------- the service

  class ClosingService {
    const site: Site
    var sheet: Option<Sheet>
    var rows: seq<CountRow>
    var discrepancies: seq<Discrepancy>

    ghost function Snapshot(): State
      reads this
    {
      State(sheet, rows, discrepancies)
    }

    constructor (site: Site)
      ensures Snapshot() == Untouched && this.site == site
    {
      this.site := site;
      sheet, rows, discrepancies := None, [], [];
    }

    /** The day's movements, handed to buildChannels. */
    method ExpectedChannels(tables: Tables, accounts: seq<AccountRow>) returns (chs: seq<ChannelRow>)
      ensures chs == ChannelsOf(site, tables, accounts)
    {
      chs := BuildChannels(ChannelMovements(tables, site.branch, site.day), accounts, site.labels);
    }

    method Count(channel: Channel, account: Option<AccountId>, counted: Option<int>, skip: bool, reasonGiven: bool,
                 tables: Tables, accounts: seq<AccountRow>)
      returns (r: Outcome)
      modifies this
      ensures (Snapshot(), r)
           == Apply(site, old(Snapshot()), RecordCount(channel, account, counted, skip, reasonGiven, tables, accounts))
    {
      if skip {
        if counted.Some? || !reasonGiven {
          return Refused(BadRequest);
        }
      } else if counted.None? {
        return Refused(BadRequest);
      }
      if (channel == Account && account.None?) || (channel == Cash && account.Some?) {
        return Refused(BadRequest);
      }
      if sheet.Some? && sheet.value.status == Locked {
        return Refused(Conflict);
      }
      var chs := ExpectedChannels(tables, accounts);
      var target := FindChannel(chs, Key(channel, account));
      if target.None? {
        return Refused(NotFound);
      }
      if IsUnattributed(target.value.key) {
        return Refused(BadRequest);
      }
      WriteRow(chs, target.value, counted, skip);
      return Done;
    }

    method WriteRow(chs: seq<ChannelRow>, ch: ChannelRow, counted: Option<int>, skip: bool)
      modifies this
      ensures Snapshot() == WriteCount(old(Snapshot()), chs, ch, counted, skip)
    {
      var row := Frozen(ch, counted, skip);
      if sheet.None? {
        sheet := Some(Sheet(Counting, 0, 0, 0, 0));
      }
      var prior := IndexOf(rows, ch.key);
      if prior < |rows| {
        rows := rows[prior := row];
      } else {
        rows := rows + [row];
      }
      var status := if IsComplete(chs, rows) then Counted else Counting;
      sheet := Some(sheet.value.(status := status, version := sheet.value.version + 1));
    }

    /** The loop that freezes each channel of the day, carrying over its count or skip. */
    method FreezeChannels(chs: seq<ChannelRow>) returns (frozen: seq<CountRow>)
      ensures frozen == Freeze(rows, chs)
    {
      frozen := rows;
      for n := 0 to |chs|
        invariant frozen == Freeze(rows, chs[..n])
      {
        assert chs[..n + 1][..n] == chs[..n];
        var ch := chs[n];
        var saved := IndexOf(frozen, ch.key);
        if saved < |frozen| {
          var counted := frozen[saved].counted;
          frozen := frozen[saved := Frozen(ch, counted, frozen[saved].isSkipped)];
        } else {
          frozen := frozen + [Frozen(ch, None, false)];
        }
      }
      assert chs[..|chs|] == chs;
    }

    /** The loop that turns each difference into a question. */
    method OpenDiscrepancies(frozen: seq<CountRow>) returns (found: seq<Discrepancy>)
      ensures found == Opened(frozen, |frozen|, discrepancies)
    {
      found := discrepancies;
      for i := 0 to |frozen|
        invariant found == Opened(frozen, i, discrepancies)
      {
        if Opens(frozen[i]) && !HasDiscrepancy(found, i) {
          found := found + [Discrepancy(i, frozen[i].difference.value)];
        }
      }
    }

    method SignOff(countedCash: Option<int>, tables: Tables, accounts: seq<AccountRow>) returns (r: Outcome)
      modifies this
      ensures (Snapshot(), r) == Apply(site, old(Snapshot()), Close(countedCash, tables, accounts))
    {
      if sheet.Some? && sheet.value.status == Locked {
        return Refused(Conflict);
      }
      var expected := ExpectedCash(tables, site.branch, site.day);
      var recorded := RecordedCash(rows);
      if recorded.Some? {
        if countedCash.Some? && countedCash.value != recorded.value {
          return Refused(Conflict);
        }
      } else if countedCash.None? {
        return Refused(BadRequest);
      }
      var counted := if recorded.Some? then recorded.value else countedCash.value;
      var chs := ExpectedChannels(tables, accounts);
      Lock(chs, expected, counted);
      return Done;
    }

    method Lock(chs: seq<ChannelRow>, expected: int, counted: int)
      modifies this
      ensures Snapshot() == WriteLock(old(Snapshot()), chs, expected, counted)
    {
      var frozen := FreezeChannels(chs);
      var found := OpenDiscrepancies(frozen);
      var version := if sheet.Some? then sheet.value.version + 1 else 0;
      sheet := Some(Sheet(Locked, version, expected, counted, counted - expected));
      rows := frozen;
      discrepancies := found;
    }
  }
}
