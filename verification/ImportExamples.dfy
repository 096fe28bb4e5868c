/**
 * A serial-number sheet of two rows in a shop that holds the first of them, dash and all: the preview passes both, and
 * what the commit does depends on whether the database has that number under its unique index.
 */
module ImportExamples {
  import opened Prelude
  import opened Strings
  import opened ImportRows
  import opened Imports

  const PhoneImei := "490154203237518"

  function Body(): seq<seq<string>> {
    [["A-1", "T", "1"], ["B2", "T", "1"]]
  }

  function Columns(): Mapping {
    [Some(SerialNo), Some(Model), Some(Cost)]
  }

  function ReadOne(): Reader {
    (s: string) => Some(1.0)
  }

  function TwoSerials(): Sheet {
    Sheet(0, Columns(), Body(), ReadOne(), None)
  }

  function Held(imei: Option<string>): seq<Unit> {
    [Unit(0, 0, imei, None, Some("A-1"), 1.0)]
  }

  lemma RowCells(i: nat)
    requires i < 2
    ensures var cells := CellsOf(Columns(), Body()[i]);
            && SerialNo in cells && cells[SerialNo] == (if i == 0 then "A-1" else "B2")
            && Model in cells && cells[Model] == "T" && Cost in cells && Price !in cells
  {
    SerialColumns();
  }

  lemma RowIsComplete(i: nat)
    requires i < 2
    ensures Complete(CellsOf(Columns(), Body()[i]), BySerial, ReadOne())
    ensures Identifier(CellsOf(Columns(), Body()[i]), BySerial) == Some(if i == 0 then "A-1" else "B2")
  {
    RowCells(i);
    assert Trim("T") == "T" && Trim("A-1") == "A-1" && Trim("B2") == "B2";
  }

  lemma DashIsStripped()
    ensures Strip("A-1") != "A-1"
  {
    assert "A-1"[1..] == "-1" && "-1"[1..] == "1" && "1"[1..] == "";
    assert Strip("A-1") == "A1";
  }

  /** The shop is asked for nothing it holds. */
  lemma NothingFound(imei: Option<string>)
    requires imei == None || imei == Some(PhoneImei)
    ensures Known(Held(imei), Claimed(Body(), Columns(), BySerial)) == {}
  {
    var claimed := Claimed(Body(), Columns(), BySerial);
    forall id | id in claimed
      ensures id != "A-1" && id != PhoneImei
    {
      ClaimedIsStripped(Body(), Columns(), BySerial, id);
      DashIsStripped();
      ClaimedIsShort(id);
    }
    assert Ids(Held(imei)[0]) <= {"A-1", PhoneImei};
  }

  lemma ClaimedIsShort(id: string)
    requires id in Claimed(Body(), Columns(), BySerial)
    ensures |id| <= 3
  {
    SerialColumns();
    var j :| 0 <= j < |Body()| && id == Trim(Strip(CellAt(Body()[j], 0)));
    StripTrim(CellAt(Body()[j], 0));
    StripShortens(CellAt(Body()[j], 0));
  }

  lemma {:induction false} StripShortens(s: string)
    ensures |Strip(s)| <= |s|
  {
    if s != "" {
      StripShortens(s[1..]);
    }
  }

  lemma BothPass(imei: Option<string>)
    requires imei == None || imei == Some(PhoneImei)
    ensures var out := Verdicts(Body(), Columns(), BySerial, Held(imei), ReadOne());
            && |out| == 2 && out[0].verdict.status != Error && out[1].verdict.status != Error
            && out[0].verdict.parsed.serialNo == Some("A-1") && out[1].verdict.parsed.serialNo == Some("B2")
  {
    NothingFound(imei);
    RowIsComplete(0);
    RowIsComplete(1);
    RowIsNewIff(Body(), Columns(), BySerial, Held(imei), ReadOne(), 0);
    RowIsNewIff(Body(), Columns(), BySerial, Held(imei), ReadOne(), 1);
    RowIsFresh(Body(), Columns(), BySerial, Held(imei), ReadOne(), 0);
    RowIsFresh(Body(), Columns(), BySerial, Held(imei), ReadOne(), 1);
  }

  lemma TwoImportable(out: seq<Decided>)
    requires |out| == 2 && out[0].verdict.status != Error && out[1].verdict.status != Error
    ensures Importable(out) == [out[0].verdict.parsed, out[1].verdict.parsed]
  {
    assert out[..1] == [out[0]] && [out[0]][..0] == [];
    assert Importable(out[..1]) == [out[0].verdict.parsed];
  }

  lemma ColumnsSuffice()
    ensures KindOf(Columns()) == Some(BySerial) && MissingRequirements(Columns()) == []
  {
    assert Columns()[0] == Some(SerialNo) && Columns()[1] == Some(Model) && Columns()[2] == Some(Cost);
  }

  lemma PreviewShape(units: seq<Unit>)
    ensures var b, out := PreviewOf(TwoSerials(), units), Verdicts(Body(), Columns(), BySerial, units, ReadOne());
            b.status == Preview && b.rows == out && b.branch == 0 && b.kind == BySerial
  {
    ColumnsSuffice();
  }

  /** The batch the preview writes: both rows to be imported. */
  lemma Previewed(imei: Option<string>)
    requires imei == None || imei == Some(PhoneImei)
    ensures var b := PreviewOf(TwoSerials(), Held(imei));
            && BatchOk(b) && b.valid + b.warning == 2 && b.branch == 0 && b.kind == BySerial && Prepare(b, 0, None).None?
            && |Importable(b.rows)| == 2 && Importable(b.rows)[0].serialNo == Some("A-1")
            && Importable(b.rows)[1].serialNo == Some("B2")
  {
    BothPass(imei);
    PreviewIsOk(TwoSerials(), Held(imei));
    PreviewShape(Held(imei));
    TwoImportable(Verdicts(Body(), Columns(), BySerial, Held(imei), ReadOne()));
    BatchFacts(PreviewOf(TwoSerials(), Held(imei)));
  }

  lemma BatchFacts(b: Batch)
    requires BatchOk(b) && b.status == Preview && |Importable(b.rows)| == 2
    ensures b.valid + b.warning == 2 && Prepare(b, b.branch, None).None?
  {
  }

  function After(imei: Option<string>): Db {
    Db(Shop([], Held(imei), [], []), [PreviewOf(TwoSerials(), Held(imei))])
  }

  /** Held as a serial number: the index refuses the row, and with it the sheet, good row and all. */
  lemma DashedDuplicateBlocksItsSheet()
    ensures ApplyCommit(After(None), 0, 0, None) == (After(None), Refused(Conflict))
  {
    var db := After(None);
    Previewed(None);
    CommitGoesThroughIff(db, 0, 0, None);
    assert ([] + Held(None))[0] == Held(None)[0] && Code(Held(None)[0]) == Some("A-1");
    assert Clashes(db.batches[0], db.shop, 0);
  }

  /** Held beside an IMEI, so not under the index: the number is imported again and stands on two units. */
  lemma DashedDuplicateIsDoubled()
    ensures ApplyCommit(After(Some(PhoneImei)), 0, 0, None).1 == Done
    ensures !Unique(ApplyCommit(After(Some(PhoneImei)), 0, 0, None).0.shop.units)
  {
    var db := After(Some(PhoneImei));
    Previewed(Some(PhoneImei));
    var b := db.batches[0];
    NoneTaken(b, db.shop);
    CommitGoesThroughIff(db, 0, 0, None);
    DoneBringsAll(db, 0, 0, None);
    SerialStandsTwice(db.shop, Importable(b.rows));
  }

  lemma NoneTaken(b: Batch, shop: Shop)
    requires b.kind == BySerial && |Importable(b.rows)| == 2 && shop.elsewhere == [] && shop.units == Held(Some(PhoneImei))
    requires Importable(b.rows)[0].serialNo == Some("A-1") && Importable(b.rows)[1].serialNo == Some("B2")
    ensures forall k :: 0 <= k < 2 ==> !Clashes(b, shop, k)
  {
    var all := shop.elsewhere + shop.units;
    assert |all| == 1 && all[0] == Held(Some(PhoneImei))[0];
    assert Code(all[0]) == Some(PhoneImei) && |PhoneImei| == 15;
    assert forall code :: code in Taken(BySerial, all) ==> code == PhoneImei;
  }

  lemma DoneBringsAll(db: Db, id: nat, branch: nat, expected: Option<nat>)
    requires id < |db.batches| && ApplyCommit(db, id, branch, expected).1 == Done
    ensures var b := db.batches[id];
            ApplyCommit(db, id, branch, expected).0.shop == AddRows(db.shop, b.branch, b.kind, Importable(b.rows))
  {
  }

  lemma SerialStandsTwice(shop: Shop, rows: seq<Parsed>)
    requires |rows| == 2 && rows[0].serialNo == Some("A-1") && shop.units == Held(Some(PhoneImei))
    ensures !Unique(AddRows(shop, 0, BySerial, rows).units)
  {
    var one := AddRows(shop, 0, BySerial, rows[..1]);
    assert rows[..1] == [rows[0]] && [rows[0]][..0] == [];
    AddRowsLast(shop, 0, BySerial, rows);
    AddRowsLast(shop, 0, BySerial, rows[..1]);
    var units := AddRows(shop, 0, BySerial, rows).units;
    assert units[0] == Held(Some(PhoneImei))[0];
    assert "A-1" in Ids(units[0]) && "A-1" in Ids(units[1]);
  }
}
