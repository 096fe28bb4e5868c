/** The per-channel reconciliation of src/closing/channels.ts. Amounts are integer cents. */
module Channels {
  import opened Prelude

  type AccountId = nat

  datatype Channel = Cash | Account

  datatype Component = SalesIn | RefundsOut | SupplierOut | ExpensesOut | CorrectionsIn

  datatype Movement = Movement(channel: Channel, account: Option<AccountId>, component: Component, amount: int)

  datatype AccountRow = AccountRow(id: AccountId, name: string, isActive: bool, sortOrder: int)

  datatype Sums = Sums(salesIn: int, refundsOut: int, supplierOut: int, expensesOut: int, correctionsIn: int)

  /** A bucket: cash has no account; an account movement with none is the unattributed bucket. */
  datatype Key = Key(channel: Channel, account: Option<AccountId>)

  datatype Caption = CashCaption | UnattributedCaption | Named(name: string)

  datatype ChannelRow = ChannelRow(key: Key, caption: Caption, sums: Sums, expected: int)

  const CashKey := Key(Cash, None)
  const UnattributedKey := Key(Account, None)
  const Zero := Sums(0, 0, 0, 0, 0)

  function Sign(c: Component): int {
    match c
    case SalesIn => 1
    case RefundsOut => -1
    case SupplierOut => -1
    case ExpensesOut => -1
    case CorrectionsIn => 1
  }

  function KeyOf(m: Movement): Key {
    Key(m.channel, if m.channel == Cash then None else m.account)
  }

  function Expected(s: Sums): int {
    s.salesIn - s.refundsOut - s.supplierOut - s.expensesOut + s.correctionsIn
  }

  function Bump(s: Sums, c: Component, amount: int): Sums {
    match c
    case SalesIn => s.(salesIn := s.salesIn + amount)
    case RefundsOut => s.(refundsOut := s.refundsOut + amount)
    case SupplierOut => s.(supplierOut := s.supplierOut + amount)
    case ExpensesOut => s.(expensesOut := s.expensesOut + amount)
    case CorrectionsIn => s.(correctionsIn := s.correctionsIn + amount)
  }

  // ---------------------------------------------------------------- reference definition

  /** The component totals of one bucket. */
  function SumsOf(ms: seq<Movement>, k: Key): Sums {
    if ms == [] then Zero
    else
      var last := ms[|ms| - 1];
      var before := SumsOf(ms[..|ms| - 1], k);
      if KeyOf(last) == k then Bump(before, last.component, last.amount) else before
  }

  /** The membership rule: cash, every active account, and whatever money moved through. */
  ghost predicate Belongs(k: Key, ms: seq<Movement>, accounts: seq<AccountRow>) {
    || k == CashKey
    || (exists i :: 0 <= i < |accounts| && accounts[i].isActive && k == Key(Account, Some(accounts[i].id)))
    || (exists i :: 0 <= i < |ms| && ms[i].amount != 0 && KeyOf(ms[i]) == k)
  }

  function LabelOf(accounts: seq<AccountRow>, id: AccountId): Caption {
    if accounts == [] then UnattributedCaption
    else if accounts[|accounts| - 1].id == id then Named(accounts[|accounts| - 1].name)
    else LabelOf(accounts[..|accounts| - 1], id)
  }

  function OrderOf(accounts: seq<AccountRow>, k: Key): int {
    if k.account.None? || accounts == [] then 0
    else if accounts[|accounts| - 1].id == k.account.value then accounts[|accounts| - 1].sortOrder
    else OrderOf(accounts[..|accounts| - 1], k)
  }

  function RowFor(k: Key, sums: Sums, accounts: seq<AccountRow>): ChannelRow {
    ChannelRow(k,
               if k.channel == Cash then CashCaption
               else if k.account.None? then UnattributedCaption
               else LabelOf(accounts, k.account.value),
               sums, Expected(sums))
  }

  // ---------------------------------------------------------------- the keys in insertion order

  function AddKey(ks: seq<Key>, k: Key): seq<Key> {
    if k in ks then ks else ks + [k]
  }

  function AccountKeys(accounts: seq<AccountRow>): seq<Key> {
    if accounts == [] then [CashKey]
    else
      var last := accounts[|accounts| - 1];
      var before := AccountKeys(accounts[..|accounts| - 1]);
      if last.isActive then AddKey(before, Key(Account, Some(last.id))) else before
  }

  function KeysOf(ms: seq<Movement>, accounts: seq<AccountRow>): seq<Key> {
    if ms == [] then AccountKeys(accounts)
    else
      var last := ms[|ms| - 1];
      var before := KeysOf(ms[..|ms| - 1], accounts);
      if last.amount == 0 then before else AddKey(before, KeyOf(last))
  }

  lemma {:induction false} AccountKeysMembers(accounts: seq<AccountRow>, k: Key)
    ensures k in AccountKeys(accounts) <==> Belongs(k, [], accounts)
    ensures Distinct(AccountKeys(accounts))
  {
    if accounts != [] {
      var last := |accounts| - 1;
      AccountKeysMembers(accounts[..last], k);
      assert Belongs(k, [], accounts) <==>
             Belongs(k, [], accounts[..last])
             || (accounts[last].isActive && k == Key(Account, Some(accounts[last].id)));
    }
  }

  lemma {:induction false} KeysMembers(ms: seq<Movement>, accounts: seq<AccountRow>, k: Key)
    ensures k in KeysOf(ms, accounts) <==> Belongs(k, ms, accounts)
    ensures Distinct(KeysOf(ms, accounts))
  {
    if ms == [] {
      AccountKeysMembers(accounts, k);
    } else {
      var last := |ms| - 1;
      KeysMembers(ms[..last], accounts, k);
      assert Belongs(k, ms, accounts) <==>
             Belongs(k, ms[..last], accounts) || (ms[last].amount != 0 && KeyOf(ms[last]) == k);
    }
  }

  // ---------------------------------------------------------------- the order of the rows

  /** localeCompare on two labels, as some total preorder. */
  type LabelOrder = (Caption, Caption) -> bool

  ghost predicate IsPreorder(le: LabelOrder) {
    && (forall a, b :: le(a, b) || le(b, a))
    && (forall a, b, c :: le(a, b) && le(b, c) ==> le(a, c))
  }

  /** The comparator: cash first, unattributed last, then the shop's order, then the label. */
  predicate Before(a: ChannelRow, b: ChannelRow, accounts: seq<AccountRow>, le: LabelOrder) {
    if a.key.channel != b.key.channel then a.key.channel == Cash
    else if IsUnattributed(a.key) != IsUnattributed(b.key) then IsUnattributed(b.key)
    else
      var x, y := OrderOf(accounts, a.key), OrderOf(accounts, b.key);
      x < y || (x == y && le(a.caption, b.caption))
  }

  predicate IsUnattributed(k: Key) {
    k == UnattributedKey
  }

  function Insert(rows: seq<ChannelRow>, r: ChannelRow, accounts: seq<AccountRow>, le: LabelOrder): seq<ChannelRow> {
    if rows == [] then [r]
    else
      var last := |rows| - 1;
      if Before(rows[last], r, accounts, le) then rows + [r]
      else Insert(rows[..last], r, accounts, le) + [rows[last]]
  }

  /** A stable sort. */
  function Sort(rows: seq<ChannelRow>, accounts: seq<AccountRow>, le: LabelOrder): seq<ChannelRow> {
    if rows == [] then [] else Insert(Sort(rows[..|rows| - 1], accounts, le), rows[|rows| - 1], accounts, le)
  }

  ghost predicate InOrder(rows: seq<ChannelRow>, accounts: seq<AccountRow>, le: LabelOrder) {
    forall i, j :: 0 <= i < j < |rows| ==> Before(rows[i], rows[j], accounts, le)
  }

  lemma BeforeIsPreorder(a: ChannelRow, b: ChannelRow, c: ChannelRow, accounts: seq<AccountRow>, le: LabelOrder)
    requires IsPreorder(le)
    ensures Before(a, b, accounts, le) || Before(b, a, accounts, le)
    ensures Before(a, b, accounts, le) && Before(b, c, accounts, le) ==> Before(a, c, accounts, le)
  {
  }

  ghost predicate DistinctRows(rows: seq<ChannelRow>) {
    forall i, j :: 0 <= i < j < |rows| ==> rows[i].key != rows[j].key
  }

  lemma {:induction false} InsertMembers(rows: seq<ChannelRow>, r: ChannelRow, accounts: seq<AccountRow>, le: LabelOrder)
    ensures forall x :: x in Insert(rows, r, accounts, le) <==> x in rows || x == r
    ensures SumExpected(Insert(rows, r, accounts, le)) == SumExpected(rows) + r.expected
  {
    if rows != [] {
      var last, out := |rows| - 1, Insert(rows, r, accounts, le);
      assert rows == rows[..last] + [rows[last]];
      if Before(rows[last], r, accounts, le) {
        assert out[..|rows|] == rows;
      } else {
        InsertMembers(rows[..last], r, accounts, le);
        assert out[..|out| - 1] == Insert(rows[..last], r, accounts, le);
      }
    }
  }

  lemma {:induction false} InsertDistinct(rows: seq<ChannelRow>, r: ChannelRow, accounts: seq<AccountRow>, le: LabelOrder)
    requires DistinctRows(rows) && forall i :: 0 <= i < |rows| ==> rows[i].key != r.key
    ensures DistinctRows(Insert(rows, r, accounts, le))
  {
    if rows != [] {
      var last := |rows| - 1;
      if !Before(rows[last], r, accounts, le) {
        var front := Insert(rows[..last], r, accounts, le);
        InsertDistinct(rows[..last], r, accounts, le);
        InsertMembers(rows[..last], r, accounts, le);
        forall i | 0 <= i < |front|
          ensures front[i].key != rows[last].key
        {
          assert front[i] in front;
        }
      }
    }
  }

  lemma {:induction false} InsertInOrder(rows: seq<ChannelRow>, r: ChannelRow, accounts: seq<AccountRow>, le: LabelOrder)
    requires IsPreorder(le) && InOrder(rows, accounts, le)
    ensures InOrder(Insert(rows, r, accounts, le), accounts, le)
  {
    if rows != [] {
      var last := |rows| - 1;
      if Before(rows[last], r, accounts, le) {
        forall i | 0 <= i < |rows|
          ensures Before(rows[i], r, accounts, le)
        {
          BeforeIsPreorder(rows[i], rows[last], r, accounts, le);
        }
      } else {
        var front := Insert(rows[..last], r, accounts, le);
        InsertInOrder(rows[..last], r, accounts, le);
        InsertMembers(rows[..last], r, accounts, le);
        BeforeIsPreorder(r, rows[last], rows[last], accounts, le);
        forall i | 0 <= i < |front|
          ensures Before(front[i], rows[last], accounts, le)
        {
          assert front[i] in front;
        }
      }
    }
  }

  lemma {:induction false} SortMembers(rows: seq<ChannelRow>, accounts: seq<AccountRow>, le: LabelOrder)
    ensures forall x :: x in Sort(rows, accounts, le) <==> x in rows
    ensures SumExpected(Sort(rows, accounts, le)) == SumExpected(rows)
  {
    if rows != [] {
      var last := |rows| - 1;
      SortMembers(rows[..last], accounts, le);
      InsertMembers(Sort(rows[..last], accounts, le), rows[last], accounts, le);
      assert rows == rows[..last] + [rows[last]];
    }
  }

  lemma {:induction false} SortDistinct(rows: seq<ChannelRow>, accounts: seq<AccountRow>, le: LabelOrder)
    requires DistinctRows(rows)
    ensures DistinctRows(Sort(rows, accounts, le))
  {
    if rows != [] {
      var last := |rows| - 1;
      var front := Sort(rows[..last], accounts, le);
      SortDistinct(rows[..last], accounts, le);
      SortMembers(rows[..last], accounts, le);
      forall i | 0 <= i < |front|
        ensures front[i].key != rows[last].key
      {
        assert front[i] in rows[..last];
      }
      InsertDistinct(front, rows[last], accounts, le);
    }
  }

  lemma {:induction false} SortInOrder(rows: seq<ChannelRow>, accounts: seq<AccountRow>, le: LabelOrder)
    requires IsPreorder(le)
    ensures InOrder(Sort(rows, accounts, le), accounts, le)
  {
    if rows != [] {
      SortInOrder(rows[..|rows| - 1], accounts, le);
      InsertInOrder(Sort(rows[..|rows| - 1], accounts, le), rows[|rows| - 1], accounts, le);
    }
  }

  // ---------------------------------------------------------------- buildChannels

  function UnsortedRows(ms: seq<Movement>, accounts: seq<AccountRow>): seq<ChannelRow> {
    var ks := KeysOf(ms, accounts);
    seq(|ks|, i requires 0 <= i < |ks| => RowFor(ks[i], SumsOf(ms, ks[i]), accounts))
  }

  function Build(ms: seq<Movement>, accounts: seq<AccountRow>, le: LabelOrder): seq<ChannelRow> {
    Sort(UnsortedRows(ms, accounts), accounts, le)
  }

  function SumExpected(rows: seq<ChannelRow>): int {
    if rows == [] then 0 else SumExpected(rows[..|rows| - 1]) + rows[|rows| - 1].expected
  }

  lemma {:induction false} NoKeyNoMoney(ms: seq<Movement>, accounts: seq<AccountRow>, k: Key)
    requires k !in KeysOf(ms, accounts)
    ensures SumsOf(ms, k) == Zero
  {
    if ms != [] {
      NoKeyNoMoney(ms[..|ms| - 1], accounts, k);
    }
  }

  /** The source's loops: a Map of running totals, then one row per entry, then the sort. */
  method BuildChannels(ms: seq<Movement>, accounts: seq<AccountRow>, le: LabelOrder) returns (rows: seq<ChannelRow>)
    ensures rows == Build(ms, accounts, le)
  {
    var order, totals := [CashKey], map[CashKey := Zero];
    for i := 0 to |accounts|
      invariant order == AccountKeys(accounts[..i])
      invariant forall k :: k in totals <==> k in order
      invariant forall k :: k in totals ==> totals[k] == Zero
    {
      assert accounts[..i + 1][..i] == accounts[..i];
      var k := Key(Account, Some(accounts[i].id));
      if accounts[i].isActive && k !in totals {
        order, totals := order + [k], totals[k := Zero];
      }
    }
    assert accounts[..|accounts|] == accounts;
    for i := 0 to |ms|
      invariant order == KeysOf(ms[..i], accounts)
      invariant forall k :: k in totals <==> k in order
      invariant forall k :: k in totals ==> totals[k] == SumsOf(ms[..i], k)
    {
      var m := ms[i];
      assert ms[..i + 1][..i] == ms[..i];
      if m.amount != 0 {
        var k := KeyOf(m);
        if k !in totals {
          NoKeyNoMoney(ms[..i], accounts, k);
          order, totals := order + [k], totals[k := Zero];
        }
        totals := totals[k := Bump(totals[k], m.component, m.amount)];
      }
    }
    assert ms[..|ms|] == ms;
    var unsorted := [];
    for i := 0 to |order|
      invariant unsorted == UnsortedRows(ms, accounts)[..i]
    {
      assert order[i] in order;
      unsorted := unsorted + [RowFor(order[i], totals[order[i]], accounts)];
    }
    assert unsorted == UnsortedRows(ms, accounts);
    rows := Sort(unsorted, accounts, le);
  }

  // ---------------------------------------------------------------- what it promises

  lemma UnsortedHas(ms: seq<Movement>, accounts: seq<AccountRow>, k: Key)
    ensures Belongs(k, ms, accounts) ==> RowFor(k, SumsOf(ms, k), accounts) in UnsortedRows(ms, accounts)
    ensures forall r :: r in UnsortedRows(ms, accounts) && r.key == k ==>
              Belongs(k, ms, accounts) && r == RowFor(k, SumsOf(ms, k), accounts)
    ensures DistinctRows(UnsortedRows(ms, accounts))
  {
    KeysMembers(ms, accounts, k);
    var ks := KeysOf(ms, accounts);
    if Belongs(k, ms, accounts) {
      var i :| 0 <= i < |ks| && ks[i] == k;
      assert UnsortedRows(ms, accounts)[i] == RowFor(k, SumsOf(ms, k), accounts);
    }
  }

  /**
   * Membership and figures: a row exists for exactly the keys that belong, and carries that bucket's
   * component totals and their signed sum.
   */
  lemma RowsAreTheBuckets(ms: seq<Movement>, accounts: seq<AccountRow>, le: LabelOrder, k: Key)
    ensures var rows := Build(ms, accounts, le);
            && (Belongs(k, ms, accounts) <==> exists r :: r in rows && r.key == k)
            && (forall r :: r in rows && r.key == k ==> r == RowFor(k, SumsOf(ms, k), accounts))
  {
    var rows, unsorted := Build(ms, accounts, le), UnsortedRows(ms, accounts);
    SortMembers(unsorted, accounts, le);
    UnsortedHas(ms, accounts, k);
    if Belongs(k, ms, accounts) {
      var r := RowFor(k, SumsOf(ms, k), accounts);
      assert r in rows && r.key == k;
    }
  }

  /** No key appears twice, and the rows are in the comparator's order. */
  lemma KeysAreUniqueAndSorted(ms: seq<Movement>, accounts: seq<AccountRow>, le: LabelOrder)
    requires IsPreorder(le)
    ensures DistinctRows(Build(ms, accounts, le))
    ensures InOrder(Build(ms, accounts, le), accounts, le)
  {
    UnsortedHas(ms, accounts, CashKey);
    SortDistinct(UnsortedRows(ms, accounts), accounts, le);
    SortInOrder(UnsortedRows(ms, accounts), accounts, le);
  }

  /** Cash is first; the unattributed bucket, when there is one, is last. */
  lemma CashFirstUnattributedLast(ms: seq<Movement>, accounts: seq<AccountRow>, le: LabelOrder)
    requires IsPreorder(le)
    ensures var rows := Build(ms, accounts, le);
            && rows != [] && rows[0].key == CashKey
            && (forall i :: 0 <= i < |rows| && rows[i].key == UnattributedKey ==> i == |rows| - 1)
  {
    var rows := Build(ms, accounts, le);
    KeysAreUniqueAndSorted(ms, accounts, le);
    RowsAreTheBuckets(ms, accounts, le, CashKey);
    var r :| r in rows && r.key == CashKey;
    var c :| 0 <= c < |rows| && rows[c] == r;
    forall i | 0 <= i < |rows| && rows[i].key.channel == Cash
      ensures rows[i].key == CashKey
    {
      RowsAreTheBuckets(ms, accounts, le, rows[i].key);
      assert rows[i] in rows;
    }
    assert c > 0 ==> Before(rows[0], rows[c], accounts, le);
    forall i | 0 <= i < |rows| && rows[i].key == UnattributedKey
      ensures i == |rows| - 1
    {
      assert i == |rows| - 1 || Before(rows[i], rows[|rows| - 1], accounts, le);
    }
  }

  lemma CashRowFigures(ms: seq<Movement>, accounts: seq<AccountRow>, le: LabelOrder)
    requires IsPreorder(le)
    ensures Build(ms, accounts, le) != []
    ensures Build(ms, accounts, le)[0] == RowFor(CashKey, SumsOf(ms, CashKey), accounts)
  {
    CashFirstUnattributedLast(ms, accounts, le);
    RowsAreTheBuckets(ms, accounts, le, CashKey);
    assert Build(ms, accounts, le)[0] in Build(ms, accounts, le);
  }

  ghost predicate DistinctIds(accounts: seq<AccountRow>) {
    forall i, j :: 0 <= i < j < |accounts| ==> accounts[i].id != accounts[j].id
  }

  lemma {:induction false} AccountFound(accounts: seq<AccountRow>, a: nat)
    requires DistinctIds(accounts) && a < |accounts|
    ensures LabelOf(accounts, accounts[a].id) == Named(accounts[a].name)
    ensures OrderOf(accounts, Key(Account, Some(accounts[a].id))) == accounts[a].sortOrder
  {
    if a < |accounts| - 1 {
      AccountFound(accounts[..|accounts| - 1], a);
    }
  }

  lemma {:induction false} AccountMissing(accounts: seq<AccountRow>, id: AccountId)
    requires forall a :: 0 <= a < |accounts| ==> accounts[a].id != id
    ensures LabelOf(accounts, id) == UnattributedCaption
  {
    if accounts != [] {
      AccountMissing(accounts[..|accounts| - 1], id);
    }
  }

  /** A row is called cash, by the name of its account, or unattributed when there is none. */
  lemma RowsAreNamed(ms: seq<Movement>, accounts: seq<AccountRow>, le: LabelOrder, r: ChannelRow)
    requires DistinctIds(accounts) && r in Build(ms, accounts, le)
    ensures r.key.channel == Cash ==> r.caption == CashCaption
    ensures forall a :: 0 <= a < |accounts| && r.key == Key(Account, Some(accounts[a].id)) ==> r.caption == Named(accounts[a].name)
    ensures r.key.channel == Account && (forall a :: 0 <= a < |accounts| ==> r.key.account != Some(accounts[a].id)) ==>
              r.caption == UnattributedCaption
  {
    RowsAreTheBuckets(ms, accounts, le, r.key);
    forall a | 0 <= a < |accounts| && r.key == Key(Account, Some(accounts[a].id))
      ensures r.caption == Named(accounts[a].name)
    {
      AccountFound(accounts, a);
    }
    if r.key.channel == Account && r.key.account.Some? && forall a :: 0 <= a < |accounts| ==> accounts[a].id != r.key.account.value {
      AccountMissing(accounts, r.key.account.value);
    }
  }

  /** Between cash and the unattributed bucket, accounts stand in the order the shop gave them, equals by name. */
  lemma AccountsStandInTheShopsOrder(ms: seq<Movement>, accounts: seq<AccountRow>, le: LabelOrder, i: nat, j: nat, a: nat, b: nat)
    requires IsPreorder(le) && DistinctIds(accounts) && i < j < |Build(ms, accounts, le)|
    requires a < |accounts| && b < |accounts|
    requires Build(ms, accounts, le)[i].key == Key(Account, Some(accounts[a].id))
    requires Build(ms, accounts, le)[j].key == Key(Account, Some(accounts[b].id))
    ensures accounts[a].sortOrder <= accounts[b].sortOrder
    ensures accounts[a].sortOrder == accounts[b].sortOrder ==> le(Named(accounts[a].name), Named(accounts[b].name))
  {
    var rows := Build(ms, accounts, le);
    KeysAreUniqueAndSorted(ms, accounts, le);
    RowsAreNamed(ms, accounts, le, rows[i]);
    RowsAreNamed(ms, accounts, le, rows[j]);
    AccountFound(accounts, a);
    AccountFound(accounts, b);
    assert Before(rows[i], rows[j], accounts, le);
  }

  // ---------------------------------------------------------------- conservation

  /** Every movement with the sign of its component. */
  function SignedTotal(ms: seq<Movement>): int {
    if ms == [] then 0
    else SignedTotal(ms[..|ms| - 1]) + Signed(ms[|ms| - 1])
  }

  function Signed(m: Movement): int {
    Sign(m.component) * m.amount
  }

  /** The expected figures of some buckets together. */
  function Held(ks: seq<Key>, ms: seq<Movement>): int {
    if ks == [] then 0 else Held(ks[..|ks| - 1], ms) + Expected(SumsOf(ms, ks[|ks| - 1]))
  }

  /** The expected figure of a bucket moves by the sign table. */
  lemma BumpExpected(s: Sums, c: Component, amount: int)
    ensures Expected(Bump(s, c, amount)) == Expected(s) + Sign(c) * amount
  {
  }

  /** One more movement counts once among distinct buckets, if its own is among them. */
  lemma {:induction false} HeldGrows(ks: seq<Key>, ms: seq<Movement>)
    requires Distinct(ks) && ms != []
    ensures var last := ms[|ms| - 1];
            Held(ks, ms) == Held(ks, ms[..|ms| - 1])
                            + if KeyOf(last) in ks then Signed(last) else 0
  {
    if ks != [] {
      var n, last := |ks| - 1, ms[|ms| - 1];
      HeldGrows(ks[..n], ms);
      BumpExpected(SumsOf(ms[..|ms| - 1], ks[n]), last.component, last.amount);
      assert KeyOf(last) in ks <==> KeyOf(last) in ks[..n] || KeyOf(last) == ks[n];
      if KeyOf(last) == ks[n] {
        assert KeyOf(last) !in ks[..n];
      }
    }
  }

  lemma {:induction false} HeldOfNothing(ks: seq<Key>)
    ensures Held(ks, []) == 0
  {
    if ks != [] {
      HeldOfNothing(ks[..|ks| - 1]);
    }
  }

  lemma {:induction false} HeldIsSigned(ks: seq<Key>, ms: seq<Movement>)
    requires Distinct(ks)
    requires forall i :: 0 <= i < |ms| && ms[i].amount != 0 ==> KeyOf(ms[i]) in ks
    ensures Held(ks, ms) == SignedTotal(ms)
  {
    if ms == [] {
      HeldOfNothing(ks);
    } else {
      HeldGrows(ks, ms);
      HeldIsSigned(ks, ms[..|ms| - 1]);
    }
  }

  lemma {:induction false} UnsortedSum(ms: seq<Movement>, accounts: seq<AccountRow>, n: nat)
    requires n <= |KeysOf(ms, accounts)|
    ensures SumExpected(UnsortedRows(ms, accounts)[..n]) == Held(KeysOf(ms, accounts)[..n], ms)
  {
    if n > 0 {
      UnsortedSum(ms, accounts, n - 1);
      assert UnsortedRows(ms, accounts)[..n][..n - 1] == UnsortedRows(ms, accounts)[..n - 1];
      assert KeysOf(ms, accounts)[..n][..n - 1] == KeysOf(ms, accounts)[..n - 1];
    }
  }

  /** Conservation: the expected figures add up to the signed sum of all movements. */
  lemma ExpectedFiguresConserveMoney(ms: seq<Movement>, accounts: seq<AccountRow>, le: LabelOrder)
    ensures SumExpected(Build(ms, accounts, le)) == SignedTotal(ms)
  {
    var ks, unsorted := KeysOf(ms, accounts), UnsortedRows(ms, accounts);
    SortMembers(unsorted, accounts, le);
    UnsortedSum(ms, accounts, |ks|);
    assert unsorted[..|ks|] == unsorted && ks[..|ks|] == ks;
    KeysMembers(ms, accounts, CashKey);
    forall i | 0 <= i < |ms| && ms[i].amount != 0
      ensures KeyOf(ms[i]) in ks
    {
      KeysMembers(ms, accounts, KeyOf(ms[i]));
    }
    HeldIsSigned(ks, ms);
  }

  // ---------------------------------------------------------------- order of the movements

  function Plus(a: Sums, b: Sums): Sums {
    Sums(a.salesIn + b.salesIn, a.refundsOut + b.refundsOut, a.supplierOut + b.supplierOut,
         a.expensesOut + b.expensesOut, a.correctionsIn + b.correctionsIn)
  }

  function Single(m: Movement, k: Key): Sums {
    if KeyOf(m) == k then Bump(Zero, m.component, m.amount) else Zero
  }

  lemma BumpIsPlus(s: Sums, m: Movement, k: Key)
    ensures Plus(s, Single(m, k)) == if KeyOf(m) == k then Bump(s, m.component, m.amount) else s
  {
  }

  lemma {:induction false} SumsWithout(ms: seq<Movement>, i: nat, k: Key)
    requires i < |ms|
    ensures SumsOf(ms, k) == Plus(SumsOf(ms[..i] + ms[i + 1..], k), Single(ms[i], k))
  {
    var last := |ms| - 1;
    var rest := ms[..i] + ms[i + 1..];
    if i == last {
      assert rest == ms[..last];
      BumpIsPlus(SumsOf(rest, k), ms[last], k);
    } else {
      var front := ms[..last];
      SumsWithout(front, i, k);
      assert rest == front[..i] + front[i + 1..] + [ms[last]];
      assert rest[..|rest| - 1] == front[..i] + front[i + 1..];
      BumpIsPlus(SumsOf(front, k), ms[last], k);
      BumpIsPlus(SumsOf(rest[..|rest| - 1], k), ms[last], k);
    }
  }

  lemma {:induction false} SumsIgnoreOrder(a: seq<Movement>, b: seq<Movement>, k: Key)
    requires multiset(a) == multiset(b)
    ensures SumsOf(a, k) == SumsOf(b, k)
    decreases |a|
  {
    if a == [] {
      assert |multiset(b)| == 0;
    } else {
      var last := |a| - 1;
      assert a[last] in multiset(b);
      var i :| 0 <= i < |b| && b[i] == a[last];
      MultisetWithout(a, last);
      MultisetWithout(b, i);
      SumsWithout(a, last, k);
      SumsWithout(b, i, k);
      assert a[..last] + a[last + 1..] == a[..last];
      SumsIgnoreOrder(a[..last], b[..i] + b[i + 1..], k);
    }
  }

  /** Reordering the movements changes neither which rows there are nor any figure in them. */
  lemma ReorderingChangesNoRow(a: seq<Movement>, b: seq<Movement>, accounts: seq<AccountRow>, le: LabelOrder, r: ChannelRow)
    requires multiset(a) == multiset(b)
    ensures r in Build(a, accounts, le) <==> r in Build(b, accounts, le)
  {
    RowsAreTheBuckets(a, accounts, le, r.key);
    RowsAreTheBuckets(b, accounts, le, r.key);
    SumsIgnoreOrder(a, b, r.key);
    assert forall m :: m in a <==> m in multiset(a);
    assert forall m :: m in b <==> m in multiset(b);
    assert Belongs(r.key, a, accounts) == Belongs(r.key, b, accounts) by {
      assert forall i :: 0 <= i < |a| ==> a[i] in b;
      assert forall i :: 0 <= i < |b| ==> b[i] in a;
    }
  }
}
