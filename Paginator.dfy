/** The Portuguese paginator labels installed by the application's
    configuration (src/app/app.config.ts). */
module Paginator {
  import opened JsStrings

  const ItemsPerPageLabel: string := "Itens por página"
  const NextPageLabel: string := "Próxima página"
  const PreviousPageLabel: string := "Página anterior"
  const FirstPageLabel: string := "Primeira página"
  const LastPageLabel: string := "Última página"

  /** The label set the factory installs; every field is a constant. */
  datatype PaginatorIntl = PaginatorIntl(
    itemsPerPageLabel: string,
    nextPageLabel: string,
    previousPageLabel: string,
    firstPageLabel: string,
    lastPageLabel: string)

  function Labels(): (p: PaginatorIntl)
    ensures p.itemsPerPageLabel == ItemsPerPageLabel && p.nextPageLabel == NextPageLabel
    ensures p.previousPageLabel == PreviousPageLabel && p.firstPageLabel == FirstPageLabel
    ensures p.lastPageLabel == LastPageLabel
  {
    PaginatorIntl(ItemsPerPageLabel, NextPageLabel, PreviousPageLabel, FirstPageLabel, LastPageLabel)
  }

  /** `endIndex` of `getRangeLabel`: clamped to `length` only when the page
      starts inside the list. */
  function RangeEnd(page: nat, pageSize: nat, length: nat): (r: nat)
    ensures page * pageSize < length ==>
              r <= length && r <= page * pageSize + pageSize
              && (r == length || r == page * pageSize + pageSize)
  {
    var start := page * pageSize;
    if start < length then (if start + pageSize < length then start + pageSize else length)
    else start + pageSize
  }

  /** `getRangeLabel(page, pageSize, length)`. */
  function RangeLabel(page: nat, pageSize: nat, length: nat): (r: string)
    ensures |r| > |NatToString(length)| + 4 && IsDigit(r[0])
    ensures r[|r| - |NatToString(length)| - 4..] == " de " + NatToString(length)
  {
    if length == 0 || pageSize == 0 then "0 de " + NatToString(length)
    else NatToString(page * pageSize + 1) + " - " + NatToString(RangeEnd(page, pageSize, length))
         + " de " + NatToString(length)
  }

  /** A page that starts inside the list ends after its start and no later
      than the list's end; past the end, nothing is clamped. */
  lemma RangeEndBounds(page: nat, pageSize: nat, length: nat)
    requires pageSize > 0
    ensures page * pageSize < length ==>
              page * pageSize < RangeEnd(page, pageSize, length) <= length
              && RangeEnd(page, pageSize, length) - page * pageSize <= pageSize
    ensures page * pageSize >= length ==> RangeEnd(page, pageSize, length) == page * pageSize + pageSize
  {
  }

  /** The numbers a range label shows. */
  datatype RangeParts = Empty(length: nat) | Range(first: nat, last: nat, length: nat)

  /** Reads the decimal numeral at the start of `s`, returning it and the
      text after it. */
  function ReadNumber(s: string): Option<(nat, string)> {
    var k := DigitRun(s);
    if k == 0 then None else Some((ParseDigits(s[..k]), s[k..]))
  }

  /** Reads a numeral that makes up all of `s`. */
  function ReadLastNumber(s: string): Option<nat> {
    match ReadNumber(s)
    case Some((n, rest)) => if rest == "" then Some(n) else None
    case None => None
  }

  /** Consumes the literal `lit` at the start of `s`. */
  function Expect(s: string, lit: string): Option<string> {
    if StartsWith(s, lit) then Some(s[|lit|..]) else None
  }

  /** Reads a label of either form back into its numbers. */
  function ParseRangeLabel(s: string): Option<RangeParts> {
    match ReadNumber(s)
    case None => None
    case Some((a, rest)) => ParseAfterFirst(a, rest)
  }

  function ParseAfterFirst(a: nat, rest: string): Option<RangeParts> {
    match Expect(rest, " de ")
    case Some(len) =>
      (match ReadLastNumber(len)
       case Some(l) => Some(Empty(l))
       case None => None)
    case None =>
      match Expect(rest, " - ")
      case None => None
      case Some(rest2) => ParseAfterDash(a, rest2)
  }

  function ParseAfterDash(a: nat, rest: string): Option<RangeParts> {
    match ReadNumber(rest)
    case None => None
    case Some((e, rest2)) =>
      match Expect(rest2, " de ")
      case None => None
      case Some(len) =>
        match ReadLastNumber(len)
        case Some(l) => Some(Range(a, e, l))
        case None => None
  }

  lemma ReadNumeral(n: nat, rest: string)
    requires |rest| > 0 ==> !IsDigit(rest[0])
    ensures ReadNumber(NatToString(n) + rest) == Some((n, rest))
  {
    var d := NatToString(n);
    DigitRunOfNumeral(d, rest);
    ParseNatToString(n);
    assert (d + rest)[..|d|] == d;
    assert (d + rest)[|d|..] == rest;
  }

  lemma ReadLastNumeral(n: nat)
    ensures ReadLastNumber(NatToString(n)) == Some(n)
  {
    ReadNumeral(n, "");
    assert NatToString(n) + "" == NatToString(n);
  }

  lemma ExpectLiteral(lit: string, rest: string)
    ensures Expect(lit + rest, lit) == Some(rest)
  {
    assert (lit + rest)[..|lit|] == lit;
    assert (lit + rest)[|lit|..] == rest;
  }

  /** Every label `getRangeLabel` produces reads back as its numbers: either
      "0 de <length>" or "<start+1> - <end> de <length>". */
  lemma RangeLabelRoundTrip(page: nat, pageSize: nat, length: nat)
    ensures ParseRangeLabel(RangeLabel(page, pageSize, length)) ==
              if length == 0 || pageSize == 0 then Some(Empty(length))
              else Some(Range(page * pageSize + 1, RangeEnd(page, pageSize, length), length))
  {
    if length == 0 || pageSize == 0 {
      EmptyLabelReads(length);
    } else {
      RangeTextReads(page * pageSize + 1, RangeEnd(page, pageSize, length), length);
    }
  }

  lemma EmptyLabelReads(length: nat)
    ensures ParseRangeLabel("0 de " + NatToString(length)) == Some(Empty(length))
  {
    var len := NatToString(length);
    assert NatToString(0) == "0";
    assert "0 de " + len == NatToString(0) + (" de " + len);
    ReadNumeral(0, " de " + len);
    ExpectLiteral(" de ", len);
    ReadLastNumeral(length);
  }

  lemma RangeTextReads(first: nat, last: nat, length: nat)
    ensures ParseRangeLabel(NatToString(first) + " - " + NatToString(last) + " de " + NatToString(length))
            == Some(Range(first, last, length))
  {
    var more := NatToString(last) + " de " + NatToString(length);
    var rest := " - " + more;
    var s := NatToString(first) + rest;
    assert NatToString(first) + " - " + NatToString(last) + " de " + NatToString(length) == s;
    ReadNumeral(first, rest);
    assert ReadNumber(s) == Some((first, rest));
    AfterFirstDash(first, last, length);
  }

  lemma AfterFirstDash(first: nat, last: nat, length: nat)
    ensures ParseAfterFirst(first, " - " + (NatToString(last) + " de " + NatToString(length)))
            == Some(Range(first, last, length))
  {
    var more := NatToString(last) + " de " + NatToString(length);
    var rest := " - " + more;
    assert Expect(rest, " de ") == None by { assert rest[1] == '-'; }
    ExpectLiteral(" - ", more);
    DashTailReads(first, last, length);
  }

  lemma DashTailReads(first: nat, last: nat, length: nat)
    ensures ParseAfterDash(first, NatToString(last) + " de " + NatToString(length))
            == Some(Range(first, last, length))
  {
    var len := NatToString(length);
    ReadNumeral(last, " de " + len);
    assert NatToString(last) + " de " + len == NatToString(last) + (" de " + len);
    ExpectLiteral(" de ", len);
    ReadLastNumeral(length);
  }

  /** Worked example: the second page of ten items on a list of 25. */
  lemma SecondPageOfTen()
    ensures RangeEnd(1, 10, 25) == 20 && RangeEnd(2, 10, 25) == 25 && RangeEnd(3, 10, 25) == 40
  {
  }
}
