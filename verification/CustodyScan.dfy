/**
 * The scan that confirms a hand-over: custody of src/consignment/consignments.service.ts refuses a partial
 * confirmation by counting the scanned identifiers and looking each of them up.
 */
module CustodyScan {
  import opened Prelude
  import opened ConsignmentLifecycle
  import opened ConsignmentModel
  import opened Strings

  function Elements(s: seq<string>): set<string> {
    set x | x in s
  }

  /** A sequence holds as many values as places exactly when no value is repeated. */
  lemma {:induction false} ElementsCount(s: seq<string>)
    ensures |Elements(s)| <= |s|
    ensures |Elements(s)| == |s| <==> Distinct(s)
  {
    if s != [] {
      var first, last := s[..|s| - 1], s[|s| - 1];
      ElementsCount(first);
      assert s == first + [last];
      if last in first {
        assert Elements(s) == Elements(first);
        var i :| 0 <= i < |first| && first[i] == last;
        assert s[i] == s[|s| - 1];
      } else {
        assert Elements(s) == Elements(first) + {last};
        assert Distinct(first) ==> Distinct(s);
        assert Distinct(s) ==> Distinct(first) by {
          assert forall i :: 0 <= i < |first| ==> first[i] == s[i];
        }
      }
    }
  }

  function Folds(s: seq<string>): seq<string> {
    seq(|s|, i requires 0 <= i < |s| => Fold(s[i]))
  }

  lemma {:induction false} MatchIsSent(sent: seq<string>, folded: string)
    requires FirstMatch(sent, folded).Some?
    ensures folded in Folds(sent)
  {
    if Fold(sent[0]) == folded {
      assert Folds(sent)[0] == folded;
    } else {
      MatchIsSent(sent[1..], folded);
      var i :| 0 <= i < |sent| - 1 && Folds(sent[1..])[i] == folded;
      assert Folds(sent)[i + 1] == folded;
    }
  }

  /** The first identifier sent that reads the same. */
  ghost predicate IsFirstMatch(sent: seq<string>, scanned: string, i: nat) {
    i < |sent| && Fold(sent[i]) == Fold(scanned) && forall j :: 0 <= j < i ==> Fold(sent[j]) != Fold(scanned)
  }

  lemma {:induction false} FirstMatchIs(sent: seq<string>, scanned: string)
    ensures FirstMatch(sent, Fold(scanned)).None? ==> forall i: nat :: !IsFirstMatch(sent, scanned, i)
    ensures FirstMatch(sent, Fold(scanned)).Some? ==>
              exists i: nat :: IsFirstMatch(sent, scanned, i) && sent[i] == FirstMatch(sent, Fold(scanned)).value
  {
    if sent != [] {
      var rest := sent[1..];
      FirstMatchIs(rest, scanned);
      assert forall j :: 1 <= j < |sent| ==> sent[j] == rest[j - 1];
      assert forall j :: 0 <= j < |rest| ==> rest[j] == sent[j + 1];
      if Fold(sent[0]) == Fold(scanned) {
        assert IsFirstMatch(sent, scanned, 0);
      } else if FirstMatch(rest, Fold(scanned)).Some? {
        var i: nat :| IsFirstMatch(rest, scanned, i) && rest[i] == FirstMatch(rest, Fold(scanned)).value;
        assert IsFirstMatch(sent, scanned, i + 1);
      } else {
        forall i: nat
          ensures !IsFirstMatch(sent, scanned, i)
        {
          assert i > 0 ==> !IsFirstMatch(rest, scanned, i - 1);
        }
      }
    }
  }

  lemma OneFirstMatch(sent: seq<string>, scanned: string, i: nat, j: nat)
    requires IsFirstMatch(sent, scanned, i) && IsFirstMatch(sent, scanned, j)
    ensures i == j
  {
  }

  /**
   * A scan is accepted exactly when it reads as some identifier sent, spaces, dashes and letter case aside; a phone
   * sent without any identifier is only ever recognised as the first.
   */
  lemma ScanAcceptedIff(sent: seq<string>, scanned: string)
    requires sent != []
    ensures ScanMatches(sent, scanned) <==> exists i: nat :: IsFirstMatch(sent, scanned, i) && (i == 0 || sent[i] != "")
  {
    FirstMatchIs(sent, scanned);
    if Fold(sent[0]) == Fold(scanned) {
      assert IsFirstMatch(sent, scanned, 0);
    }
    if FirstMatch(sent, Fold(scanned)).Some? {
      var i: nat :| IsFirstMatch(sent, scanned, i) && sent[i] == FirstMatch(sent, Fold(scanned)).value;
      forall j: nat | IsFirstMatch(sent, scanned, j)
        ensures j == i
      {
        OneFirstMatch(sent, scanned, i, j);
      }
    }
  }

  lemma AcceptedScanWasSent(sent: seq<string>, scanned: string)
    requires sent != [] && ScanMatches(sent, scanned)
    ensures Fold(scanned) in Folds(sent)
  {
    MatchIsSent(sent, Fold(scanned));
  }

  lemma SubsetOfSameSize(a: set<string>, b: set<string>)
    requires a <= b
    ensures |a| <= |b|
    ensures a == b <==> |a| == |b|
  {
    assert b == a + (b - a);
  }

  /** Every phone handed over was scanned, spaces, dashes and letter case aside. */
  ghost predicate IsCompleteScan(sent: seq<string>, scanned: seq<string>) {
    forall s :: s in Folds(sent) ==> s in Folds(scanned)
  }

  /**
   * A confirmation scan that is accepted covers every phone handed over exactly when as many different
   * identifiers were scanned as were handed over: where those are distinct, when none was scanned twice.
   */
  lemma AcceptedScanIsCompleteIff(c: Consignment, lines: seq<Line>, side: Side, scanned: seq<string>)
    requires PrepareCustody(c, lines, side, Custody(false, scanned)).Go? && scanned != []
    ensures IsCompleteScan(Sent(lines), scanned)
       <==> |Elements(Folds(scanned))| == |Elements(Folds(Sent(lines)))|
    ensures Distinct(Folds(Sent(lines))) ==> (IsCompleteScan(Sent(lines), scanned) <==> Distinct(Folds(scanned)))
  {
    var sent := Sent(lines);
    forall s | s in Folds(scanned)
      ensures s in Folds(sent)
    {
      var i :| 0 <= i < |scanned| && Fold(scanned[i]) == s;
      assert scanned[i] in scanned;
      AcceptedScanWasSent(sent, scanned[i]);
    }
    ElementsCount(Folds(sent));
    ElementsCount(Folds(scanned));
    assert Elements(Folds(scanned)) <= Elements(Folds(sent));
    SubsetOfSameSize(Elements(Folds(scanned)), Elements(Folds(sent)));
    assert IsCompleteScan(sent, scanned) <==> Elements(Folds(sent)) <= Elements(Folds(scanned)) by {
      assert forall s :: s in Elements(Folds(sent)) <==> s in Folds(sent);
      assert forall s :: s in Elements(Folds(scanned)) <==> s in Folds(scanned);
    }
  }

  /** One phone scanned twice confirms two. */
  lemma PartialScanPasses(c: Consignment)
    requires c.status == CustodyAwaitingConfirmation && c.agreed.Some?
    ensures var lines := [Line(0, "A", c.agreed, LineProposed), Line(1, "B", c.agreed, LineProposed)];
            PrepareCustody(c, lines, Destination, Custody(false, ["A", "A"])).Go? && Sent(lines) == ["A", "B"]
  {
    var lines := [Line(0, "A", c.agreed, LineProposed), Line(1, "B", c.agreed, LineProposed)];
    assert lines[..1] == [lines[0]] && lines[..1][..0] == [];
    assert Sent(lines[..1]) == ["A"];
    assert Sent(lines) == ["A", "B"];
    assert ScanMatches(["A", "B"], "A");
  }
}
