/** White space and separators, as the services trim and fold what people type. */
module Strings {
  /** White space as String.prototype.trim sees it. */
  predicate IsSpace(c: char) {
    || c in {'\t', '\n', '\U{000B}', '\U{000C}', '\r', ' ', '\U{00A0}', '\U{1680}', '\U{2028}', '\U{2029}'}
    || c in {'\U{202F}', '\U{205F}', '\U{3000}', '\U{FEFF}'}
    || '\U{2000}' <= c <= '\U{200A}'
  }

  function TrimLeft(s: string): string {
    if s != "" && IsSpace(s[0]) then TrimLeft(s[1..]) else s
  }

  function TrimRight(s: string): string {
    if s != "" && IsSpace(s[|s| - 1]) then TrimRight(s[..|s| - 1]) else s
  }

  function Trim(s: string): string {
    TrimRight(TrimLeft(s))
  }

  predicate IsSeparator(c: char) {
    IsSpace(c) || c == '-'
  }

  /** The identifier without the spaces and dashes people type into it. */
  function Strip(s: string): string {
    if s == "" then "" else if IsSeparator(s[0]) then Strip(s[1..]) else [s[0]] + Strip(s[1..])
  }

  lemma {:induction false} StripIsPlain(s: string)
    ensures forall i :: 0 <= i < |Strip(s)| ==> !IsSeparator(Strip(s)[i])
  {
    if s != "" {
      StripIsPlain(s[1..]);
    }
  }

  lemma {:induction false} StripSnoc(s: string, c: char)
    ensures Strip(s + [c]) == Strip(s) + if IsSeparator(c) then "" else [c]
  {
    if s == "" {
      assert s + [c] == [c] && [c][1..] == "";
    } else {
      assert (s + [c])[0] == s[0] && (s + [c])[1..] == s[1..] + [c];
      StripSnoc(s[1..], c);
    }
  }

  lemma {:induction false} StripTrimRight(s: string)
    ensures Strip(TrimRight(s)) == Strip(s)
  {
    if s != "" && IsSpace(s[|s| - 1]) {
      StripTrimRight(s[..|s| - 1]);
      assert s == s[..|s| - 1] + [s[|s| - 1]];
      StripSnoc(s[..|s| - 1], s[|s| - 1]);
    }
  }

  lemma {:induction false} StripTrimLeft(s: string)
    ensures Strip(TrimLeft(s)) == Strip(s)
  {
    if s != "" && IsSpace(s[0]) {
      StripTrimLeft(s[1..]);
    }
  }

  lemma StripTrim(s: string)
    ensures Strip(Trim(s)) == Strip(s) && Trim(Strip(s)) == Strip(s)
  {
    StripTrimRight(TrimLeft(s));
    StripTrimLeft(s);
    var r := Strip(s);
    StripIsPlain(s);
    if r != "" {
      assert !IsSeparator(r[0]) && !IsSeparator(r[|r| - 1]);
    }
  }

  lemma {:induction false} StripIdempotent(s: string)
    ensures Strip(Strip(s)) == Strip(s)
  {
    if s != "" {
      StripIdempotent(s[1..]);
    }
  }

  function UpperChar(c: char): char {
    if 'a' <= c <= 'z' then (c as int - 'a' as int + 'A' as int) as char else c
  }

  /** Upper case, for the letters identifiers are made of. */
  function Upper(s: string): string {
    if s == "" then "" else [UpperChar(s[0])] + Upper(s[1..])
  }

  /** An identifier as a scanner's reading is compared with it. */
  function Fold(s: string): string {
    Upper(Strip(s))
  }

  // ---------------------------------------------------------------- what they promise

  ghost predicate AllSpace(s: string) {
    forall i :: 0 <= i < |s| ==> IsSpace(s[i])
  }

  lemma {:induction false} TrimLeftIs(s: string) returns (lead: string)
    ensures s == lead + TrimLeft(s) && AllSpace(lead) && (TrimLeft(s) != "" ==> !IsSpace(TrimLeft(s)[0]))
  {
    lead := "";
    if s != "" && IsSpace(s[0]) {
      var rest := TrimLeftIs(s[1..]);
      lead := [s[0]] + rest;
      assert s == [s[0]] + s[1..];
    }
  }

  lemma {:induction false} TrimRightIs(s: string) returns (tail: string)
    ensures s == TrimRight(s) + tail && AllSpace(tail) && (TrimRight(s) != "" ==> !IsSpace(TrimRight(s)[|TrimRight(s)| - 1]))
    ensures TrimRight(s) <= s
  {
    tail := "";
    if s != "" && IsSpace(s[|s| - 1]) {
      var rest := TrimRightIs(s[..|s| - 1]);
      tail := rest + [s[|s| - 1]];
      assert s == s[..|s| - 1] + [s[|s| - 1]];
    }
  }

  /** Trimming takes white space off both ends, all of it, and nothing else. */
  lemma TrimIs(s: string) returns (lead: string, tail: string)
    ensures s == lead + Trim(s) + tail && AllSpace(lead) && AllSpace(tail)
    ensures Trim(s) != "" ==> !IsSpace(Trim(s)[0]) && !IsSpace(Trim(s)[|Trim(s)| - 1])
  {
    lead := TrimLeftIs(s);
    tail := TrimRightIs(TrimLeft(s));
  }

  lemma TrimTwice(s: string)
    ensures Trim(Trim(s)) == Trim(s)
  {
    var lead, tail := TrimIs(s);
  }

  lemma {:induction false} StripConcat(a: string, b: string)
    ensures Strip(a + b) == Strip(a) + Strip(b)
  {
    if a == "" {
      assert a + b == b;
    } else {
      assert (a + b)[0] == a[0] && (a + b)[1..] == a[1..] + b;
      StripConcat(a[1..], b);
    }
  }

  lemma {:induction false} UpperConcat(a: string, b: string)
    ensures Upper(a + b) == Upper(a) + Upper(b)
  {
    if a == "" {
      assert a + b == b;
    } else {
      assert (a + b)[0] == a[0] && (a + b)[1..] == a[1..] + b;
      UpperConcat(a[1..], b);
    }
  }

  /** A dash or a space anywhere makes no difference to a scan. */
  lemma FoldIgnoresSeparators(a: string, c: char, b: string)
    requires IsSeparator(c)
    ensures Fold(a + [c] + b) == Fold(a + b)
  {
    StripConcat(a + [c], b);
    StripConcat(a, [c]);
    StripConcat(a, b);
    assert [c][1..] == "" && Strip([c]) == "";
    assert Strip(a + [c] + b) == Strip(a) + "" + Strip(b) == Strip(a + b);
  }

  /** Nor does the case of a letter. */
  lemma FoldIgnoresCase(a: string, b: string, k: nat)
    requires k < 26
    ensures Fold(a + [(('a' as int) + k) as char] + b) == Fold(a + [(('A' as int) + k) as char] + b)
  {
    var small, big := (('a' as int) + k) as char, (('A' as int) + k) as char;
    OneLetter(a, small, b);
    OneLetter(a, big, b);
  }

  lemma OneLetter(a: string, c: char, b: string)
    requires !IsSeparator(c)
    ensures Fold(a + [c] + b) == Fold(a) + [UpperChar(c)] + Fold(b)
  {
    StripConcat(a + [c], b);
    StripConcat(a, [c]);
    assert [c][1..] == "" && Strip([c]) == [c] && Upper([c]) == [UpperChar(c)];
    UpperConcat(Strip(a) + [c], Strip(b));
    UpperConcat(Strip(a), [c]);
  }

  /** Everything else does: digits and capitals without separators are compared as they stand. */
  lemma {:induction false} FoldKeepsPlain(s: string)
    requires forall i :: 0 <= i < |s| ==> !IsSeparator(s[i]) && !('a' <= s[i] <= 'z')
    ensures Fold(s) == s
  {
    if s != "" {
      FoldKeepsPlain(s[1..]);
      assert s == [s[0]] + s[1..];
    }
  }
}
