/**
 * From a shop's own spreadsheet to a verdict on each row: src/imports/column-mapping.ts,
 * src/imports/row-validation.ts and decideRows of src/imports/imports.service.ts.
 * Header folding with its synonym lists, and number reading, are given functions.
 */
module ImportRows {
  import opened Prelude
  import opened Strings
  import Luhn

  datatype Field = Imei | SerialNo | Barcode | Brand | Model | Variant | Cost | Price | Quantity | Note

  datatype Kind = ByImei | BySerial | ByQuantity

  // ---------------------------------------------------------------- column-mapping.ts

  /** Does the folded header, when not empty, stand in the field's synonym list? */
  type Synonyms = (Field, string) -> bool

  const Order: seq<Field> := [Imei, SerialNo, Barcode, Brand, Model, Variant, Cost, Price, Quantity, Note]

  type Mapping = seq<Option<Field>>

  predicate ClaimedBefore(mapping: Mapping, i: nat, f: Field)
    requires i <= |mapping|
  {
    Some(f) in mapping[..i]
  }

  /** Column i takes the first field, in the order of the list, that its header names and no earlier column has. */
  ghost predicate Greedy(headers: seq<string>, names: Synonyms, mapping: Mapping, i: nat)
    requires i < |headers| && i < |mapping|
  {
    exists k :: 0 <= k <= |Order| && PassesOver(headers[i], names, mapping, i, k)
                && mapping[i] == (if k < |Order| then Some(Order[k]) else None)
                && (k < |Order| ==> names(Order[k], headers[i]) && !ClaimedBefore(mapping, i, Order[k]))
  }

  ghost predicate PassesOver(header: string, names: Synonyms, mapping: Mapping, i: nat, k: nat)
    requires i <= |mapping| && k <= |Order|
  {
    forall l :: 0 <= l < k ==> !names(Order[l], header) || ClaimedBefore(mapping, i, Order[l])
  }

  ghost predicate IsGuess(headers: seq<string>, names: Synonyms, mapping: Mapping) {
    |mapping| == |headers| && forall i :: 0 <= i < |headers| ==> Greedy(headers, names, mapping, i)
  }

  method GuessMapping(headers: seq<string>, names: Synonyms) returns (mapping: Mapping)
    ensures IsGuess(headers, names, mapping)
  {
    var taken: set<Field> := {};
    mapping := [];
    for i := 0 to |headers|
      invariant |mapping| == i
      invariant forall f :: f in taken <==> Some(f) in mapping
      invariant forall j :: 0 <= j < i ==> Greedy(headers, names, mapping, j)
    {
      var field, k := None, 0;
      while k < |Order| && field.None?
        invariant 0 <= k <= |Order|
        invariant field.None? ==> PassesOver(headers[i], names, mapping, i, k)
        invariant field.Some? ==> k < |Order| && field == Some(Order[k]) && PassesOver(headers[i], names, mapping, i, k)
                                  && names(Order[k], headers[i]) && Order[k] !in taken
        decreases |Order| - k, field.None?
      {
        if Order[k] !in taken && names(Order[k], headers[i]) {
          field := Some(Order[k]);
        } else {
          k := k + 1;
        }
      }
      var next := mapping + [field];
      forall j | 0 <= j <= i
        ensures Greedy(headers, names, next, j)
      {
        GreedyExtends(headers, names, mapping, field, j, k);
      }
      if field.Some? {
        taken := taken + {field.value};
      }
      mapping := next;
    }
  }

  lemma GreedyExtends(headers: seq<string>, names: Synonyms, mapping: Mapping, field: Option<Field>, j: nat, k: nat)
    requires j <= |mapping| < |headers| && k <= |Order|
    requires j < |mapping| ==> Greedy(headers, names, mapping, j)
    requires j == |mapping| ==>
               && PassesOver(headers[j], names, mapping, j, k)
               && field == (if k < |Order| then Some(Order[k]) else None)
               && (k < |Order| ==> names(Order[k], headers[j]) && Some(Order[k]) !in mapping)
    ensures Greedy(headers, names, mapping + [field], j)
  {
    var next := mapping + [field];
    assert next[..j] == mapping[..j];
    var k' := k;
    if j < |mapping| {
      k' :| 0 <= k' <= |Order| && PassesOver(headers[j], names, mapping, j, k')
            && mapping[j] == (if k' < |Order| then Some(Order[k']) else None)
            && (k' < |Order| ==> names(Order[k'], headers[j]) && !ClaimedBefore(mapping, j, Order[k']));
    }
    assert PassesOver(headers[j], names, next, j, k');
  }

  /** No two columns fill the same field. */
  lemma EachFieldOnce(headers: seq<string>, names: Synonyms, mapping: Mapping, i: nat, j: nat)
    requires IsGuess(headers, names, mapping) && i < j < |mapping| && mapping[j].Some?
    ensures mapping[i] != mapping[j]
  {
    assert Greedy(headers, names, mapping, j);
    assert mapping[i] in mapping[..j];
  }

  lemma OrderIsAllFields(f: Field) returns (k: nat)
    ensures k < |Order| && Order[k] == f
  {
    k := match f
      case Imei => 0 case SerialNo => 1 case Barcode => 2 case Brand => 3 case Model => 4
      case Variant => 5 case Cost => 6 case Price => 7 case Quantity => 8 case Note => 9;
  }

  ghost predicate Unambiguous(headers: seq<string>, names: Synonyms) {
    forall i, f, g | 0 <= i < |headers| && names(f, headers[i]) && names(g, headers[i]) :: f == g
  }

  /** A field belongs to the first column naming it, when no header names two fields. */
  lemma {:induction false} FirstColumnWins(headers: seq<string>, names: Synonyms, mapping: Mapping, i: nat, f: Field)
    requires IsGuess(headers, names, mapping) && Unambiguous(headers, names) && i < |headers|
    ensures mapping[i] == Some(f) <==> names(f, headers[i]) && forall j :: 0 <= j < i ==> !names(f, headers[j])
    decreases i
  {
    forall j | 0 <= j < i
      ensures mapping[j] == Some(f) <==> names(f, headers[j]) && forall l :: 0 <= l < j ==> !names(f, headers[l])
    {
      FirstColumnWins(headers, names, mapping, j, f);
    }
    ClaimedIffNamed(headers, names, mapping, i, f);
    assert Greedy(headers, names, mapping, i);
    var k := OrderIsAllFields(f);
  }

  lemma ClaimedIffNamed(headers: seq<string>, names: Synonyms, mapping: Mapping, i: nat, f: Field)
    requires i <= |headers| == |mapping|
    requires forall j :: 0 <= j < i ==>
               (mapping[j] == Some(f) <==> names(f, headers[j]) && forall l :: 0 <= l < j ==> !names(f, headers[l]))
    ensures ClaimedBefore(mapping, i, f) <==> exists j :: 0 <= j < i && names(f, headers[j])
  {
    if j :| 0 <= j < i && names(f, headers[j]) {
      var first := FirstNaming(headers, names, f, j);
      assert mapping[first] == Some(f) && mapping[first] in mapping[..i];
    }
  }

  lemma {:induction false} FirstNaming(headers: seq<string>, names: Synonyms, f: Field, j: nat) returns (first: nat)
    requires j < |headers| && names(f, headers[j])
    ensures first <= j && names(f, headers[first]) && forall l :: 0 <= l < first ==> !names(f, headers[l])
  {
    first := j;
    if l :| 0 <= l < j && names(f, headers[l]) {
      first := FirstNaming(headers, names, f, l);
    }
  }

  /** The identifier column a sheet carries decides its kind, IMEI first. */
  function KindOf(mapping: Mapping): Option<Kind> {
    if Some(Imei) in mapping then Some(ByImei)
    else if Some(SerialNo) in mapping then Some(BySerial)
    else if Some(Quantity) in mapping || Some(Barcode) in mapping then Some(ByQuantity)
    else None
  }

  datatype Problem = NoIdentifierColumn | NoModelColumn | NoCostColumn

  function MissingRequirements(mapping: Mapping): seq<Problem> {
    (if KindOf(mapping).None? then [NoIdentifierColumn] else [])
    + (if Some(Model) !in mapping then [NoModelColumn] else [])
    + (if Some(Cost) !in mapping then [NoCostColumn] else [])
  }

  // ---------------------------------------------------------------- row-validation.ts

  datatype Status = Valid | Warning | Error

  datatype Message =
    | NoModel | NoImei | NotDigits | NotFifteen | BadCheckDigit | NoSerial | NoQuantity | NotWhole
    | Repeated | InStock | NoCost | NegativeCost | ZeroCost | NegativePrice | BelowCost

  datatype Parsed = Parsed(
    imei: Option<string>, serialNo: Option<string>, barcode: Option<string>,
    brand: Option<string>, model: Option<string>, variant: Option<string>, note: Option<string>,
    cost: Option<real>, price: Option<real>, quantity: Option<int>)

  datatype Verdict = Verdict(status: Status, messages: seq<Message>, parsed: Parsed)

  /** parseNumber: None when the cell is not a number. */
  type Reader = string -> Option<real>

  type Cells = map<Field, string>

  function Text(cells: Cells, f: Field): Option<string> {
    if f in cells && Trim(cells[f]) != "" then Some(Trim(cells[f])) else None
  }

  function Number(cells: Cells, f: Field, read: Reader): Option<real> {
    if f in cells then read(cells[f]) else None
  }

  function OrEmpty(s: Option<string>): string {
    if s.Some? then s.value else ""
  }

  predicate IsWarning(m: Message) {
    m.ZeroCost? || m.BelowCost?
  }

  predicate Fails(messages: seq<Message>) {
    exists i :: 0 <= i < |messages| && !IsWarning(messages[i])
  }

  /** An error beats a warning, in whichever order they were found. */
  function StatusOf(messages: seq<Message>): Status {
    if Fails(messages) then Error else if messages == [] then Valid else Warning
  }

  /** The identifier a row carries: with its separators for a serial number, without them for an IMEI. */
  function Identifier(cells: Cells, kind: Kind): Option<string> {
    match kind
    case ByImei =>
      var raw := Strip(OrEmpty(Text(cells, Imei)));
      if raw == "" then None else Some(raw)
    case BySerial => Text(cells, SerialNo)
    case ByQuantity => Text(cells, Barcode)
  }

  predicate IsWhole(r: real) {
    r == r.Floor as real
  }

  function IdentifierMessages(cells: Cells, kind: Kind, read: Reader): seq<Message> {
    match kind
    case ByImei =>
      var raw := Strip(OrEmpty(Text(cells, Imei)));
      if raw == "" then [NoImei]
      else if !Luhn.AllDigits(raw) then [NotDigits]
      else if |raw| != 15 then [NotFifteen]
      else if !Luhn.IsLuhn(raw) then [BadCheckDigit]
      else []
    case BySerial => if Text(cells, SerialNo).None? then [NoSerial] else []
    case ByQuantity =>
      var qty := Number(cells, Quantity, read);
      if qty.None? then [NoQuantity]
      else if !IsWhole(qty.value) || qty.value <= 0.0 then [NotWhole]
      else []
  }

  function DuplicateMessages(id: Option<string>, seen: set<string>, shop: set<string>): seq<Message> {
    if id.None? then [] else if id.value in seen then [Repeated] else if id.value in shop then [InStock] else []
  }

  function CostMessages(cost: Option<real>): seq<Message> {
    if cost.None? then [NoCost]
    else if cost.value < 0.0 then [NegativeCost]
    else if cost.value == 0.0 then [ZeroCost]
    else []
  }

  function PriceMessages(cost: Option<real>, price: Option<real>): seq<Message> {
    if price.None? then []
    else if price.value < 0.0 then [NegativePrice]
    else if cost.Some? && cost.value > 0.0 && price.value > 0.0 && price.value < cost.value then [BelowCost]
    else []
  }

  function MoneyMessages(cost: Option<real>, price: Option<real>): seq<Message> {
    CostMessages(cost) + PriceMessages(cost, price)
  }

  function ModelMessages(cells: Cells): seq<Message> {
    if Text(cells, Model).None? then [NoModel] else []
  }

  function NotNegative(n: Option<real>): Option<real> {
    if n.Some? && n.value < 0.0 then None else n
  }

  function ParseRow(cells: Cells, kind: Kind, read: Reader): Parsed {
    var id := Identifier(cells, kind);
    var qty := Number(cells, Quantity, read);
    Parsed(if kind.ByImei? then id else None, if kind.BySerial? then id else None, if kind.ByQuantity? then id else None,
           Text(cells, Brand), Text(cells, Model), Text(cells, Variant), Text(cells, Note),
           NotNegative(Number(cells, Cost, read)), NotNegative(Number(cells, Price, read)),
           if kind.ByQuantity? && qty.Some? && IsWhole(qty.value) && qty.value > 0.0 then Some(qty.value.Floor) else None)
  }

  /** All a row says by itself: its identifier, and its messages on either side of the duplicate check. */
  datatype Reading = Reading(id: Option<string>, before: seq<Message>, after: seq<Message>, parsed: Parsed)

  function ReadRow(cells: Cells, kind: Kind, read: Reader): Reading {
    Reading(Identifier(cells, kind), ModelMessages(cells) + IdentifierMessages(cells, kind, read),
            MoneyMessages(Number(cells, Cost, read), Number(cells, Price, read)), ParseRow(cells, kind, read))
  }

  function Judge(row: Reading, seen: set<string>, shop: set<string>): Verdict {
    var messages := row.before + DuplicateMessages(row.id, seen, shop) + row.after;
    Verdict(StatusOf(messages), messages, row.parsed)
  }

  lemma FailsConcat(a: seq<Message>, b: seq<Message>)
    ensures Fails(a + b) <==> Fails(a) || Fails(b)
  {
    if i :| 0 <= i < |a| && !IsWarning(a[i]) {
      assert (a + b)[i] == a[i];
    }
    if i :| 0 <= i < |b| && !IsWarning(b[i]) {
      assert (a + b)[|a| + i] == b[i];
    }
  }

  /** What the row says is enough to be stocked, leaving duplicates aside. */
  predicate Complete(cells: Cells, kind: Kind, read: Reader) {
    var cost, price := Number(cells, Cost, read), Number(cells, Price, read);
    && Text(cells, Model).Some?
    && IdentifierMessages(cells, kind, read) == []
    && cost.Some? && cost.value >= 0.0
    && (price.Some? ==> price.value >= 0.0)
  }

  /** Free stock, or a price below cost: imported, and shown. */
  predicate Suspicious(cells: Cells, read: Reader) {
    var cost, price := Number(cells, Cost, read), Number(cells, Price, read);
    cost.Some? && (cost.value == 0.0 || (price.Some? && 0.0 < price.value < cost.value))
  }

  predicate Unclaimed(id: Option<string>, seen: set<string>, shop: set<string>) {
    id.Some? ==> id.value !in seen && id.value !in shop
  }

  predicate Refusing(row: Reading) {
    Fails(row.before) || Fails(row.after)
  }

  /** A row by itself: what makes it refused, and what makes it worth a look. */
  lemma ReadingIff(cells: Cells, kind: Kind, read: Reader)
    ensures var row := ReadRow(cells, kind, read);
            && (!Refusing(row) <==> Complete(cells, kind, read))
            && (!Refusing(row) ==> row.before == [] && (row.after != [] <==> Suspicious(cells, read)))
  {
    var a, b := ModelMessages(cells), IdentifierMessages(cells, kind, read);
    FailsConcat(a, b);
    IdentifierFails(cells, kind, read);
    MoneyIff(Number(cells, Cost, read), Number(cells, Price, read));
  }

  lemma IdentifierFails(cells: Cells, kind: Kind, read: Reader)
    ensures Fails(IdentifierMessages(cells, kind, read)) <==> IdentifierMessages(cells, kind, read) != []
    ensures Fails(ModelMessages(cells)) <==> ModelMessages(cells) != []
  {
    AtMostOne(IdentifierMessages(cells, kind, read));
    AtMostOne(ModelMessages(cells));
  }

  lemma MoneyIff(cost: Option<real>, price: Option<real>)
    ensures var m := MoneyMessages(cost, price);
            && (!Fails(m) <==> cost.Some? && cost.value >= 0.0 && (price.Some? ==> price.value >= 0.0))
            && (!Fails(m) ==> (m != [] <==> cost.value == 0.0 || (price.Some? && 0.0 < price.value < cost.value)))
  {
    FailsConcat(CostMessages(cost), PriceMessages(cost, price));
    AtMostOne(CostMessages(cost));
    AtMostOne(PriceMessages(cost, price));
  }

  /** A row in its file: when it is imported, and when with a warning. */
  lemma JudgeIff(row: Reading, seen: set<string>, shop: set<string>)
    ensures var v := Judge(row, seen, shop);
            && (v.status != Error <==> !Refusing(row) && Unclaimed(row.id, seen, shop))
            && (v.status != Error ==> (v.status == Warning <==> row.before + row.after != []))
  {
    var c := DuplicateMessages(row.id, seen, shop);
    FailsConcat(row.before, c);
    FailsConcat(row.before + c, row.after);
    AtMostOne(c);
  }

  /** When a row is imported, and when with a warning. */
  lemma RowIsImportedIff(cells: Cells, kind: Kind, seen: set<string>, shop: set<string>, read: Reader)
    ensures var v := Judge(ReadRow(cells, kind, read), seen, shop);
            && (v.status != Error <==> Complete(cells, kind, read) && Unclaimed(Identifier(cells, kind), seen, shop))
            && (v.status == Warning <==> v.status != Error && Suspicious(cells, read))
  {
    ReadingIff(cells, kind, read);
    JudgeIff(ReadRow(cells, kind, read), seen, shop);
  }

  lemma AtMostOne(m: seq<Message>)
    requires |m| <= 1
    ensures Fails(m) <==> m != [] && !IsWarning(m[0])
  {
  }

  /** What an identifier must be: checked digits, any text, or beside any barcode a whole positive number. */
  predicate IsIdentified(cells: Cells, kind: Kind, read: Reader) {
    match kind
    case ByImei => IsImei(Identifier(cells, ByImei))
    case BySerial => SerialNo in cells && Trim(cells[SerialNo]) != ""
    case ByQuantity =>
      && Quantity in cells && read(cells[Quantity]).Some?
      && read(cells[Quantity]).value > 0.0 && IsWhole(read(cells[Quantity]).value)
  }

  /** A row is complete exactly with a model, an identifier of its kind, and a cost and a price that are not negative. */
  lemma CompleteIff(cells: Cells, kind: Kind, read: Reader)
    ensures Complete(cells, kind, read) <==>
            && Model in cells && Trim(cells[Model]) != ""
            && IsIdentified(cells, kind, read)
            && Cost in cells && read(cells[Cost]).Some? && read(cells[Cost]).value >= 0.0
            && (Price in cells && read(cells[Price]).Some? ==> read(cells[Price]).value >= 0.0)
  {
  }

  /** Each complaint about an IMEI, and when it is made. */
  lemma ImeiComplaints(cells: Cells, read: Reader)
    ensures var m, id := IdentifierMessages(cells, ByImei, read), Identifier(cells, ByImei);
            && (m == [NoImei] <==> id.None?)
            && (m == [NotDigits] <==> id.Some? && exists i :: 0 <= i < |id.value| && !Luhn.IsDigit(id.value[i]))
            && (m == [NotFifteen] <==> id.Some? && Luhn.AllDigits(id.value) && |id.value| != 15)
            && (m == [BadCheckDigit] <==> id.Some? && |id.value| == 15 && Luhn.AllDigits(id.value) && !IsImei(id))
  {
  }

  /** What the other complaints mean. */
  lemma OtherComplaints(cells: Cells, seen: set<string>, shop: set<string>, read: Reader)
    ensures var id := Identifier(cells, BySerial);
            && (IdentifierMessages(cells, BySerial, read) == [NoSerial] <==> id.None?)
            && (DuplicateMessages(id, seen, shop) == [Repeated] <==> id.Some? && id.value in seen)
            && (DuplicateMessages(id, seen, shop) == [InStock] <==> id.Some? && id.value !in seen && id.value in shop)
    ensures var cost, price := Number(cells, Cost, read), Number(cells, Price, read);
            && (NoCost in MoneyMessages(cost, price) <==> cost.None?)
            && (NegativeCost in MoneyMessages(cost, price) <==> cost.Some? && cost.value < 0.0)
            && (ZeroCost in MoneyMessages(cost, price) <==> cost == Some(0.0))
            && (NegativePrice in MoneyMessages(cost, price) <==> price.Some? && price.value < 0.0)
            && (BelowCost in MoneyMessages(cost, price) <==> cost.Some? && price.Some? && 0.0 < price.value < cost.value)
  {
  }

  /** What is stored of a complete row is what its cells say. */
  lemma StoredRow(cells: Cells, kind: Kind, read: Reader)
    requires Complete(cells, kind, read)
    ensures var p := ParseRow(cells, kind, read);
            && p.model == Some(Trim(cells[Model]))
            && p.brand == (if Brand in cells && Trim(cells[Brand]) != "" then Some(Trim(cells[Brand])) else None)
            && p.variant == (if Variant in cells && Trim(cells[Variant]) != "" then Some(Trim(cells[Variant])) else None)
            && p.note == (if Note in cells && Trim(cells[Note]) != "" then Some(Trim(cells[Note])) else None)
            && p.cost == read(cells[Cost]) && p.price == (if Price in cells then read(cells[Price]) else None)
            && (kind.ByQuantity? ==> p.quantity.Some? && Some(p.quantity.value as real) == read(cells[Quantity]))
            && (!kind.ByQuantity? ==> p.quantity.None?)
            && p.imei == (if kind.ByImei? then Identifier(cells, kind) else None)
            && p.serialNo == (if kind.BySerial? then Identifier(cells, kind) else None)
            && p.barcode == (if kind.ByQuantity? then Identifier(cells, kind) else None)
  {
  }

  /** The kind of a sheet: phones if there is a column of IMEIs, else serials, else pieces. */
  lemma KindIs(mapping: Mapping)
    ensures KindOf(mapping) == Some(ByImei) <==> Some(Imei) in mapping
    ensures KindOf(mapping) == Some(BySerial) <==> Some(Imei) !in mapping && Some(SerialNo) in mapping
    ensures KindOf(mapping) == Some(ByQuantity) <==>
            Some(Imei) !in mapping && Some(SerialNo) !in mapping && (Some(Quantity) in mapping || Some(Barcode) in mapping)
    ensures (NoIdentifierColumn in MissingRequirements(mapping) <==> KindOf(mapping).None?)
    ensures (NoModelColumn in MissingRequirements(mapping) <==> Some(Model) !in mapping)
    ensures (NoCostColumn in MissingRequirements(mapping) <==> Some(Cost) !in mapping)
  {
  }

  /** validateRow: the status and the messages grow side by side. */
  method ValidateRow(cells: Cells, kind: Kind, seen: set<string>, shop: set<string>, read: Reader) returns (v: Verdict)
    ensures v == Judge(ReadRow(cells, kind, read), seen, shop)
  {
    var log := new Findings();
    log.CheckModel(cells);
    log.CheckIdentifier(cells, kind, read);
    log.CheckDuplicate(Identifier(cells, kind), seen, shop);
    log.CheckMoney(Number(cells, Cost, read), Number(cells, Price, read));
    return Verdict(log.status, log.messages, ParseRow(cells, kind, read));
  }

  /** The running status and messages of one row. */
  class Findings {
    var status: Status
    var messages: seq<Message>

    ghost predicate Valid()
      reads this
    {
      status == StatusOf(messages)
    }

    constructor ()
      ensures Valid() && messages == []
    {
      status, messages := Status.Valid, [];
    }

    method Fail(m: Message)
      requires Valid() && !IsWarning(m)
      modifies this
      ensures Valid() && messages == old(messages) + [m]
    {
      FailsConcat(messages, [m]);
      AtMostOne([m]);
      messages, status := messages + [m], Error;
    }

    method Warn(m: Message)
      requires Valid() && IsWarning(m)
      modifies this
      ensures Valid() && messages == old(messages) + [m]
    {
      FailsConcat(messages, [m]);
      AtMostOne([m]);
      messages := messages + [m];
      if status != Error {
        status := Warning;
      }
    }

    method CheckModel(cells: Cells)
      requires Valid() && messages == []
      modifies this
      ensures Valid() && messages == ModelMessages(cells)
    {
      if Text(cells, Model).None? {
        Fail(NoModel);
      }
    }

    method CheckIdentifier(cells: Cells, kind: Kind, read: Reader)
      requires Valid()
      modifies this
      ensures Valid() && messages == old(messages) + IdentifierMessages(cells, kind, read)
    {
      match kind {
        case ByImei =>
          var raw := Strip(OrEmpty(Text(cells, Imei)));
          if raw == "" {
            Fail(NoImei);
          } else if !Luhn.AllDigits(raw) {
            Fail(NotDigits);
          } else if |raw| != 15 {
            Fail(NotFifteen);
          } else {
            var ok := Luhn.LuhnValid15(raw);
            if !ok {
              Fail(BadCheckDigit);
            }
          }
        case BySerial =>
          if Text(cells, SerialNo).None? {
            Fail(NoSerial);
          }
        case ByQuantity =>
          var qty := Number(cells, Quantity, read);
          if qty.None? {
            Fail(NoQuantity);
          } else if !IsWhole(qty.value) || qty.value <= 0.0 {
            Fail(NotWhole);
          }
      }
    }

    method CheckDuplicate(id: Option<string>, seen: set<string>, shop: set<string>)
      requires Valid()
      modifies this
      ensures Valid() && messages == old(messages) + DuplicateMessages(id, seen, shop)
    {
      if id.Some? {
        if id.value in seen {
          Fail(Repeated);
        } else if id.value in shop {
          Fail(InStock);
        }
      }
    }

    method CheckMoney(cost: Option<real>, price: Option<real>)
      requires Valid()
      modifies this
      ensures Valid() && messages == old(messages) + MoneyMessages(cost, price)
    {
      if cost.None? {
        Fail(NoCost);
      } else if cost.value < 0.0 {
        Fail(NegativeCost);
      } else if cost.value == 0.0 {
        Warn(ZeroCost);
      }
      if price.Some? {
        if price.value < 0.0 {
          Fail(NegativePrice);
        } else if cost.Some? && cost.value > 0.0 && price.value > 0.0 && price.value < cost.value {
          Warn(BelowCost);
        }
      }
    }
  }

  // ---------------------------------------------------------------- decideRows

  datatype Unit = Unit(product: nat, branch: nat, imeiPrimary: Option<string>, imeiSecondary: Option<string>,
                       serialNo: Option<string>, cost: real)

  function Held(id: Option<string>): set<string> {
    if id.Some? && id.value != "" then {id.value} else {}
  }

  function Ids(u: Unit): set<string> {
    Held(u.imeiPrimary) + Held(u.imeiSecondary) + Held(u.serialNo)
  }

  function AllIds(units: seq<Unit>): set<string> {
    set i, id | 0 <= i < |units| && id in Ids(units[i]) :: id
  }

  /** Every identifier of every unit that carries one of the claimed ones. */
  function Known(units: seq<Unit>, claimed: set<string>): set<string> {
    set i, id | 0 <= i < |units| && !(Ids(units[i]) !! claimed) && id in Ids(units[i]) :: id
  }

  /** The column a field is read from; the last, should a corrected mapping name it twice. */
  function Column(mapping: Mapping, f: Field): (c: nat)
    requires Some(f) in mapping
    ensures c < |mapping| && mapping[c] == Some(f)
  {
    if mapping[|mapping| - 1] == Some(f) then |mapping| - 1 else Column(mapping[..|mapping| - 1], f)
  }

  function CellAt(raw: seq<string>, c: nat): string {
    if c < |raw| then raw[c] else ""
  }

  function CellsOf(mapping: Mapping, raw: seq<string>): Cells {
    map f: Field | Some(f) in mapping :: CellAt(raw, Column(mapping, f))
  }

  function IdentifierField(kind: Kind): Field {
    match kind case ByImei => Imei case BySerial => SerialNo case ByQuantity => Barcode
  }

  /** The identifiers the file mentions, as the shop is asked for them. */
  function Claimed(body: seq<seq<string>>, mapping: Mapping, kind: Kind): set<string> {
    var f := IdentifierField(kind);
    if Some(f) !in mapping then {}
    else (set i | 0 <= i < |body| :: Trim(Strip(CellAt(body[i], Column(mapping, f))))) - {""}
  }

  function RowAt(body: seq<seq<string>>, mapping: Mapping, kind: Kind, read: Reader, i: nat): Reading {
    ReadRow(CellsOf(mapping, if i < |body| then body[i] else []), kind, read)
  }

  /** The first n values of f. */
  function Prefix<T>(f: nat -> T, n: nat): (s: seq<T>)
    ensures |s| == n
  {
    if n == 0 then [] else Prefix(f, n - 1) + [f(n - 1)]
  }

  lemma {:induction false} PrefixAt<T>(f: nat -> T, n: nat, i: nat)
    requires i < n
    ensures Prefix(f, n)[i] == f(i)
  {
    if i < n - 1 {
      PrefixAt(f, n - 1, i);
    }
  }

  function ReadAll(body: seq<seq<string>>, mapping: Mapping, kind: Kind, read: Reader): (rows: seq<Reading>)
    ensures |rows| == |body|
  {
    Prefix((i: nat) => RowAt(body, mapping, kind, read, i), |body|)
  }

  lemma ReadAllAt(body: seq<seq<string>>, mapping: Mapping, kind: Kind, read: Reader, i: nat)
    requires i < |body|
    ensures ReadAll(body, mapping, kind, read)[i] == RowAt(body, mapping, kind, read, i)
  {
    PrefixAt((j: nat) => RowAt(body, mapping, kind, read, j), |body|, i);
  }

  /** The identifiers of the first n rows, whatever became of those rows. */
  function SeenBefore(rows: seq<Reading>, n: nat): set<string>
    requires n <= |rows|
  {
    if n == 0 then {}
    else if rows[n - 1].id.Some? then SeenBefore(rows, n - 1) + {rows[n - 1].id.value}
    else SeenBefore(rows, n - 1)
  }

  datatype Decided = Decided(rowNumber: nat, identifier: Option<string>, verdict: Verdict)

  function DecideRow(rows: seq<Reading>, shop: set<string>, i: nat): Decided
    requires i < |rows|
  {
    Decided(i + 2, rows[i].id, Judge(rows[i], SeenBefore(rows, i), shop))
  }

  /** The verdicts on the first n rows. */
  function Decide(rows: seq<Reading>, shop: set<string>, n: nat): seq<Decided>
    requires n <= |rows|
  {
    if n == 0 then [] else Decide(rows, shop, n - 1) + [DecideRow(rows, shop, n - 1)]
  }

  lemma {:induction false} DecideAt(rows: seq<Reading>, shop: set<string>, n: nat)
    requires n <= |rows|
    ensures |Decide(rows, shop, n)| == n
    ensures forall i :: 0 <= i < n ==> Decide(rows, shop, n)[i] == DecideRow(rows, shop, i)
  {
    if n > 0 {
      DecideAt(rows, shop, n - 1);
    }
  }

  function IdentifierOf(p: Parsed): Option<string> {
    if p.imei.Some? && p.imei.value != "" then p.imei
    else if p.serialNo.Some? && p.serialNo.value != "" then p.serialNo
    else if p.barcode.Some? && p.barcode.value != "" then p.barcode
    else None
  }

  lemma ParsedIdentifier(cells: Cells, kind: Kind, read: Reader)
    ensures IdentifierOf(ParseRow(cells, kind, read)) == Identifier(cells, kind)
  {
  }

  /** decideRows: one pass, growing the set of identifiers seen. */
  method DecideRows(body: seq<seq<string>>, mapping: Mapping, kind: Kind, units: seq<Unit>, read: Reader)
    returns (out: seq<Decided>)
    ensures out == Verdicts(body, mapping, kind, units, read)
  {
    var shop := Known(units, Claimed(body, mapping, kind));
    var seen: set<string> := {};
    out := [];
    ghost var rows := ReadAll(body, mapping, kind, read);
    for i := 0 to |body|
      invariant |rows| == |body| && rows == ReadAll(body, mapping, kind, read)
      invariant seen == SeenBefore(rows, i)
      invariant out == Decide(rows, shop, i)
    {
      var row;
      row, seen := DecideNext(body, mapping, kind, shop, read, rows, i, seen);
      out := out + [row];
    }
  }

  /** One turn of the loop. */
  method DecideNext(body: seq<seq<string>>, mapping: Mapping, kind: Kind, shop: set<string>, read: Reader,
                    ghost rows: seq<Reading>, i: nat, seen: set<string>)
    returns (row: Decided, seen': set<string>)
    requires i < |body| == |rows| && rows == ReadAll(body, mapping, kind, read) && seen == SeenBefore(rows, i)
    ensures row == DecideRow(rows, shop, i) && seen' == SeenBefore(rows, i + 1)
  {
    ReadAllAt(body, mapping, kind, read, i);
    var cells := CellsOf(mapping, body[i]);
    var verdict := ValidateRow(cells, kind, seen, shop, read);
    ParsedIdentifier(cells, kind, read);
    var identifier := IdentifierOf(verdict.parsed);
    seen' := if identifier.Some? then seen + {identifier.value} else seen;
    row := Decided(i + 2, identifier, verdict);
  }

  /** A row's identifier is looked up as it is stored whenever it holds no dash or inner space. */
  lemma LookupFinds(body: seq<seq<string>>, mapping: Mapping, kind: Kind, units: seq<Unit>, i: nat, id: string)
    requires i < |body| && Identifier(CellsOf(mapping, body[i]), kind) == Some(id) && Strip(id) == id
    ensures id in Known(units, Claimed(body, mapping, kind)) <==> id in AllIds(units)
  {
    var f := IdentifierField(kind);
    var cell := CellAt(body[i], Column(mapping, f));
    assert CellsOf(mapping, body[i])[f] == cell;
    StripTrim(cell);
    StripTrim(Trim(cell));
    assert Trim(Strip(cell)) == id;
    assert id in Claimed(body, mapping, kind);
  }

  /** Some unit that holds this identifier holds another one, and the file claims that one. */
  predicate FoundByAnother(units: seq<Unit>, claimed: set<string>, id: string) {
    exists u :: 0 <= u < |units| && id in Ids(units[u]) && exists other :: other in Ids(units[u]) && other != id && other in claimed
  }

  /**
   * The lookup in the shop finds a held identifier exactly when it has no dash or inner space, for the shop is asked
   * for the stripped form and holds the typed one, or when it is met through another identifier of the unit.
   */
  lemma LookupFindsIff(body: seq<seq<string>>, mapping: Mapping, kind: Kind, units: seq<Unit>, i: nat, id: string)
    requires i < |body| && Identifier(CellsOf(mapping, body[i]), kind) == Some(id)
    ensures id in Known(units, Claimed(body, mapping, kind))
       <==> id in AllIds(units) && (Strip(id) == id || FoundByAnother(units, Claimed(body, mapping, kind), id))
  {
    var claimed := Claimed(body, mapping, kind);
    if Strip(id) == id {
      LookupFinds(body, mapping, kind, units, i, id);
    }
    if id in Known(units, claimed) {
      var u :| 0 <= u < |units| && !(Ids(units[u]) !! claimed) && id in Ids(units[u]);
      var other :| other in Ids(units[u]) && other in claimed;
      if other == id {
        ClaimedIsStripped(body, mapping, kind, id);
      }
    }
    if FoundByAnother(units, claimed, id) {
      var u :| 0 <= u < |units| && id in Ids(units[u]) && exists other :: other in Ids(units[u]) && other != id && other in claimed;
      var other :| other in Ids(units[u]) && other != id && other in claimed;
      assert !(Ids(units[u]) !! claimed);
    }
  }

  lemma ClaimedIsStripped(body: seq<seq<string>>, mapping: Mapping, kind: Kind, id: string)
    requires id in Claimed(body, mapping, kind)
    ensures Strip(id) == id
  {
    var f := IdentifierField(kind);
    var j :| 0 <= j < |body| && id == Trim(Strip(CellAt(body[j], Column(mapping, f))));
    StripTrim(CellAt(body[j], Column(mapping, f)));
    StripIdempotent(CellAt(body[j], Column(mapping, f)));
  }

  lemma {:induction false} SeenIff(rows: seq<Reading>, n: nat, id: string)
    requires n <= |rows|
    ensures id in SeenBefore(rows, n) <==> exists j :: 0 <= j < n && rows[j].id == Some(id)
  {
    if n > 0 {
      SeenIff(rows, n - 1, id);
    }
  }

  predicate IsImei(id: Option<string>) {
    id.Some? && |id.value| == 15 && Luhn.IsLuhn(id.value)
  }

  /** A complete IMEI row carries an IMEI, and the lookup in the shop misses none. */
  lemma CompleteImei(body: seq<seq<string>>, mapping: Mapping, units: seq<Unit>, read: Reader, i: nat)
    requires i < |body| && Complete(CellsOf(mapping, body[i]), ByImei, read)
    ensures var id := RowAt(body, mapping, ByImei, read, i).id;
            IsImei(id) && (id.value in Known(units, Claimed(body, mapping, ByImei)) <==> id.value in AllIds(units))
  {
    var cells := CellsOf(mapping, body[i]);
    StripIdempotent(OrEmpty(Text(cells, Imei)));
    LookupFinds(body, mapping, ByImei, units, i, Identifier(cells, ByImei).value);
  }

  /** The whole verdict list of a sheet read against a shop. */
  function Verdicts(body: seq<seq<string>>, mapping: Mapping, kind: Kind, units: seq<Unit>, read: Reader): seq<Decided> {
    Decide(ReadAll(body, mapping, kind, read), Known(units, Claimed(body, mapping, kind)), |body|)
  }

  /**
   * An IMEI sheet: row i is imported exactly when it is complete, so it carries fifteen checked digits, and
   * these stand neither in the shop nor in any earlier row of the file, imported or not.
   */
  lemma ImeiRowIsFresh(body: seq<seq<string>>, mapping: Mapping, units: seq<Unit>, read: Reader, i: nat)
    requires i < |body|
    ensures var out := Verdicts(body, mapping, ByImei, units, read);
            && |out| == |body|
            && (out[i].verdict.status != Error <==>
                && Complete(CellsOf(mapping, body[i]), ByImei, read) && IsImei(out[i].identifier)
                && out[i].identifier.value !in AllIds(units)
                && forall j :: 0 <= j < i ==> out[j].identifier != out[i].identifier)
  {
    var rows, shop := ReadAll(body, mapping, ByImei, read), Known(units, Claimed(body, mapping, ByImei));
    ReadAllAt(body, mapping, ByImei, read, i);
    assert rows[i] == RowAt(body, mapping, ByImei, read, i);
    ReadingIff(CellsOf(mapping, body[i]), ByImei, read);
    if Complete(CellsOf(mapping, body[i]), ByImei, read) {
      CompleteImei(body, mapping, units, read, i);
    }
    FreshIff(rows, shop, AllIds(units), i, Complete(CellsOf(mapping, body[i]), ByImei, read));
  }

  lemma FreshIff(rows: seq<Reading>, shop: set<string>, all: set<string>, i: nat, complete: bool)
    requires i < |rows| && (complete <==> !Refusing(rows[i]))
    requires complete ==> IsImei(rows[i].id) && (rows[i].id.value in shop <==> rows[i].id.value in all)
    ensures var out := Decide(rows, shop, |rows|);
            && |out| == |rows|
            && (out[i].verdict.status != Error <==>
                && complete && IsImei(out[i].identifier)
                && out[i].identifier.value !in all
                && forall j :: 0 <= j < i ==> out[j].identifier != out[i].identifier)
  {
    DecideAt(rows, shop, |rows|);
    assert forall j :: 0 <= j <= i ==> Decide(rows, shop, |rows|)[j].identifier == rows[j].id;
    JudgeIff(rows[i], SeenBefore(rows, i), shop);
    if complete {
      SeenIff(rows, i, rows[i].id.value);
    }
  }

  /** Nothing stands in the way of row i: the shop lookup finds no such identifier and no earlier row carries it. */
  ghost predicate IsNew(out: seq<Decided>, known: set<string>, i: nat)
    requires i < |out|
  {
    out[i].identifier.Some? ==>
      out[i].identifier.value !in known && forall j :: 0 <= j < i ==> out[j].identifier != out[i].identifier
  }

  lemma NewIff(rows: seq<Reading>, shop: set<string>, i: nat)
    requires i < |rows|
    ensures var out := Decide(rows, shop, |rows|);
            |out| == |rows| && out[i].identifier == rows[i].id
            && (out[i].verdict.status != Error <==> !Refusing(rows[i]) && IsNew(out, shop, i))
  {
    DecideAt(rows, shop, |rows|);
    assert forall j :: 0 <= j <= i ==> Decide(rows, shop, |rows|)[j].identifier == rows[j].id;
    JudgeIff(rows[i], SeenBefore(rows, i), shop);
    if rows[i].id.Some? {
      SeenIff(rows, i, rows[i].id.value);
    }
  }

  /** Rows are numbered as the spreadsheet numbers them, under a header on line one. */
  lemma RowsAreNumbered(body: seq<seq<string>>, mapping: Mapping, kind: Kind, units: seq<Unit>, read: Reader, i: nat)
    requires i < |body|
    ensures var out := Verdicts(body, mapping, kind, units, read);
            |out| == |body| && out[i].rowNumber == |body[..i]| + 2
  {
    DecideAt(ReadAll(body, mapping, kind, read), Known(units, Claimed(body, mapping, kind)), |body|);
  }

  /** Any sheet: a row is imported exactly when it is complete and new. */
  lemma RowIsNewIff(body: seq<seq<string>>, mapping: Mapping, kind: Kind, units: seq<Unit>, read: Reader, i: nat)
    requires i < |body|
    ensures var out := Verdicts(body, mapping, kind, units, read);
            && |out| == |body| && out[i].identifier == Identifier(CellsOf(mapping, body[i]), kind)
            && (out[i].verdict.status != Error <==>
                Complete(CellsOf(mapping, body[i]), kind, read) && IsNew(out, Known(units, Claimed(body, mapping, kind)), i))
  {
    var rows := ReadAll(body, mapping, kind, read);
    ReadAllAt(body, mapping, kind, read, i);
    assert rows[i] == RowAt(body, mapping, kind, read, i);
    ReadingIff(CellsOf(mapping, body[i]), kind, read);
    NewIff(rows, Known(units, Claimed(body, mapping, kind)), i);
  }

  /**
   * A serial number the shop already holds passes the preview exactly when it has a dash or an inner space and is not
   * met through another identifier of its unit, the row being complete and the first of the file to carry it.
   */
  lemma HeldSerialPassesPreviewIff(body: seq<seq<string>>, mapping: Mapping, units: seq<Unit>, read: Reader, i: nat, id: string)
    requires i < |body| && Identifier(CellsOf(mapping, body[i]), BySerial) == Some(id)
    requires id in AllIds(units) && Complete(CellsOf(mapping, body[i]), BySerial, read)
    ensures var out := Verdicts(body, mapping, BySerial, units, read);
            && |out| == |body|
            && (out[i].verdict.status != Error <==>
                && Strip(id) != id && !FoundByAnother(units, Claimed(body, mapping, BySerial), id)
                && forall j :: 0 <= j < i ==> out[j].identifier != Some(id))
  {
    RowIsNewIff(body, mapping, BySerial, units, read, i);
    LookupFindsIff(body, mapping, BySerial, units, i, id);
  }

  /** Serial numbers are looked up without their dashes but kept with them, so this duplicate passes the preview. */
  lemma DashedSerialIsMissed()
    ensures var units := [Unit(0, 0, None, None, Some("A-1"), 1.0)];
            var read: Reader := (s: string) => Some(1.0);
            var out := Verdicts([["A-1", "T", "1"]], [Some(SerialNo), Some(Model), Some(Cost)], BySerial, units, read);
            |out| == 1 && out[0].verdict.status == Valid && out[0].identifier == Some("A-1") && "A-1" in AllIds(units)
  {
    var units := [Unit(0, 0, None, None, Some("A-1"), 1.0)];
    var read: Reader := (s: string) => Some(1.0);
    var mapping: Mapping := [Some(SerialNo), Some(Model), Some(Cost)];
    var body := [["A-1", "T", "1"]];
    SerialColumns();
    DashedLookup();
    var cells := CellsOf(mapping, body[0]);
    assert cells[SerialNo] == "A-1" && cells[Model] == "T" && cells[Cost] == "1";
    DashedVerdict(cells, read);
    ReadAllAt(body, mapping, BySerial, read, 0);
    DecideAt(ReadAll(body, mapping, BySerial, read), {}, 1);
  }

  lemma DashedVerdict(cells: Cells, read: Reader)
    requires SerialNo in cells && Model in cells && Cost in cells && Price !in cells
    requires cells[SerialNo] == "A-1" && cells[Model] == "T" && read(cells[Cost]) == Some(1.0)
    ensures Judge(ReadRow(cells, BySerial, read), {}, {}).status == Valid
    ensures Identifier(cells, BySerial) == Some("A-1")
  {
    assert Identifier(cells, BySerial) == Some("A-1") && Text(cells, Model) == Some("T");
    RowIsImportedIff(cells, BySerial, {}, {}, read);
  }

  lemma DashedLookup()
    ensures var units := [Unit(0, 0, None, None, Some("A-1"), 1.0)];
            "A-1" in AllIds(units)
            && Known(units, Claimed([["A-1", "T", "1"]], [Some(SerialNo), Some(Model), Some(Cost)], BySerial)) == {}
  {
    var units := [Unit(0, 0, None, None, Some("A-1"), 1.0)];
    SerialColumns();
    assert Ids(units[0]) == {"A-1"} && "A1" != "A-1";
    assert Strip("A-1") == "A1" by {
      assert "A-1"[1..] == "-1" && "-1"[1..] == "1" && "1"[1..] == "";
    }
    StripTrim("A-1");
    assert "A1" != "" && [["A-1", "T", "1"]][0][0] == "A-1";
    assert Claimed([["A-1", "T", "1"]], [Some(SerialNo), Some(Model), Some(Cost)], BySerial) == {"A1"};
  }

  lemma SerialColumns()
    ensures var mapping: Mapping := [Some(SerialNo), Some(Model), Some(Cost)];
            Column(mapping, SerialNo) == 0 && Column(mapping, Model) == 1 && Column(mapping, Cost) == 2
  {
    var mapping: Mapping := [Some(SerialNo), Some(Model), Some(Cost)];
    assert mapping[..2] == [Some(SerialNo), Some(Model)];
    assert mapping[..2][..1] == [Some(SerialNo)];
  }
}
