/** `generate_ansi_x12_850_data` of `sap_integration.py`: every row of the
    order table becomes one ANSI ASC X12 850 (Purchase Order) transaction
    set, written segment by segment into an `io.StringIO` buffer. */
module SapX12 {
  import opened Common
  import opened Dates
  import opened TextIO
  import opened SapIntegration

  /** The two parties an `N1` segment can name: ship-to (`ST`) and buyer (`BY`). */
  datatype Party = ShipTo | Buyer

  /** The segments of one transaction set. */
  datatype X12Segment =
    | ST(control: string)
    | BEG(poNumber: string, date: string)
    | N1(party: Party, id: string)
    | DTM(date: string)
    | PO1(quantity: string, partNumber: string)
    | CTT
    | SE(count: nat, control: string)

  /** The elements of an `N1` segment before the party's number: the
      entity code and the id qualifier 92 (assigned by the buyer). */
  function PartyPrefix(p: Party): string
  {
    match p
    case ShipTo => "N1*ST**92*"
    case Buyer => "N1*BY**92*"
  }

  /** The text of a segment: its elements separated by `*`, then a newline;
      the trailer is followed by an empty line. */
  function SegmentText(s: X12Segment): string
  {
    match s
    case ST(c) => "ST*850*" + c + "\n"
    case BEG(po, d) => "BEG*00*SA*" + po + "**" + d + "\n"
    case N1(p, id) => PartyPrefix(p) + id + "\n"
    case DTM(d) => "DTM*002*" + d + "\n"
    case PO1(q, part) => "PO1*1*" + q + "*KG***BP*" + part + "\n"
    case CTT => "CTT*1\n"
    case SE(n, c) => "SE*" + Decimal(n) + "*" + c + "\n\n"
  }

  /** The buffer's text after the segments `segs` are written, one after
      another, to a buffer that held `p`. */
  function Emit(p: string, segs: seq<X12Segment>): string
    decreases |segs|
  {
    if segs == [] then p else Emit(p, segs[..|segs| - 1]) + SegmentText(segs[|segs| - 1])
  }

  lemma EmitSnoc(p: string, segs: seq<X12Segment>, s: X12Segment)
    ensures Emit(p, segs + [s]) == Emit(p, segs) + SegmentText(s)
  {
    assert (segs + [s])[..|segs|] == segs;
  }

  /** Writing `a + b` is writing `a`, then `b`. */
  lemma {:induction false} EmitAppend(p: string, a: seq<X12Segment>, b: seq<X12Segment>)
    ensures Emit(p, a + b) == Emit(Emit(p, a), b)
    decreases |b|
  {
    if b == [] {
      assert a + b == a;
    } else {
      var b' := b[..|b| - 1];
      assert (a + b)[..|a + b| - 1] == a + b';
      EmitAppend(p, a, b');
    }
  }

  /** Whatever the buffer held before is kept as the text's prefix. */
  lemma {:induction false} EmitPrefix(p: string, segs: seq<X12Segment>)
    ensures Emit(p, segs) == p + Emit("", segs)
    decreases |segs|
  {
    if segs != [] {
      var init, last := segs[..|segs| - 1], SegmentText(segs[|segs| - 1]);
      EmitPrefix(p, init);
      assert Emit(p, segs) == Emit(p, init) + last;
      assert Emit("", segs) == Emit("", init) + last;
      assert (p + Emit("", init)) + last == p + (Emit("", init) + last);
    }
  }

  /** `f"{1000 + idx:04d}"`: the interchange control number of row `idx`. */
  function ControlNumber(idx: nat): string
  {
    ZeroPad(1000 + idx, 4)
  }

  /** The `N1` segment of a party when its number is non-empty (lines 254-259). */
  function PartyLine(p: Party, id: string): seq<X12Segment>
  {
    if id != "" then [N1(p, id)] else []
  }

  /** The trailer's count as the source computes it (lines 273-277): five,
      plus one for each `N1` written. */
  function SegmentCount(f: OrderFields): nat
  {
    5 + (if f.shipToNumber != "" then 1 else 0) + (if f.customerNumber != "" then 1 else 0)
  }

  /** The transaction set of the row with fields `f` at position `idx`
      (lines 242-279), dated `currentDate` in `BEG` and `deliveryDate` in `DTM`. */
  function Transaction(f: OrderFields, idx: nat, currentDate: string, deliveryDate: string): seq<X12Segment>
  {
    [ST(ControlNumber(idx)), BEG(f.poNumber, currentDate)]
      + PartyLine(ShipTo, f.shipToNumber) + PartyLine(Buyer, f.customerNumber)
      + [DTM(deliveryDate), PO1(f.orderQuantity, f.customerPartNumber), CTT, SE(SegmentCount(f), ControlNumber(idx))]
  }

  /** The transaction set of `rows[i]`: the `BEG` date is today's date and the
      `DTM` date the row's delivery date. */
  function RowTransaction(rows: seq<Row>, i: nat, today: Date): seq<X12Segment>
    requires i < |rows|
  {
    var f := FieldsOf(rows[i], i);
    Transaction(f, i, FormatYmd(today), DeliveryDate(f.deliveryDate, today))
  }

  /** The segments of the transactions of the first `n` rows, in row order. */
  function TransactionsUpTo(rows: seq<Row>, n: nat, today: Date): seq<X12Segment>
    requires n <= |rows|
  {
    if n == 0 then [] else TransactionsUpTo(rows, n - 1, today) + RowTransaction(rows, n - 1, today)
  }

  /** The whole X12 text of a non-empty table. */
  function X12Document(rows: seq<Row>, today: Date): string
  {
    Emit("", TransactionsUpTo(rows, |rows|, today))
  }

  /** A transaction set opens with `ST` and closes with `SE`, both carrying
      the row's control number, and has the `SE` count plus one segments:
      the count takes in every segment from `ST` to `CTT` but not `SE` itself. */
  lemma TransactionFrame(f: OrderFields, idx: nat, currentDate: string, deliveryDate: string)
    ensures var t := Transaction(f, idx, currentDate, deliveryDate);
      |t| == SegmentCount(f) + 1
      && t[0] == ST(ControlNumber(idx))
      && t[|t| - 1] == SE(|t| - 1, ControlNumber(idx))
      && t[|t| - 2] == CTT
  {
  }

  /** The ship-to `N1` is in the transaction exactly when the ship-to number
      is non-empty, and then it carries that number; likewise the buyer `N1`
      and the customer number. No other segment is an `N1`. */
  lemma TransactionParties(f: OrderFields, idx: nat, currentDate: string, deliveryDate: string)
    ensures var t := Transaction(f, idx, currentDate, deliveryDate);
      (exists k :: 0 <= k < |t| && t[k] == N1(ShipTo, f.shipToNumber)) <==> f.shipToNumber != ""
    ensures var t := Transaction(f, idx, currentDate, deliveryDate);
      (exists k :: 0 <= k < |t| && t[k] == N1(Buyer, f.customerNumber)) <==> f.customerNumber != ""
    ensures var t := Transaction(f, idx, currentDate, deliveryDate);
      forall k :: 0 <= k < |t| && t[k].N1? ==>
        t[k].id != "" && (t[k].party == ShipTo ==> t[k].id == f.shipToNumber)
        && (t[k].party == Buyer ==> t[k].id == f.customerNumber)
  {
    var t := Transaction(f, idx, currentDate, deliveryDate);
    var n := |PartyLine(ShipTo, f.shipToNumber)| + |PartyLine(Buyer, f.customerNumber)|;
    assert forall k :: 0 <= k < |t| ==> (t[k].N1? <==> 2 <= k < 2 + n);
    if f.shipToNumber != "" {
      assert t[2] == N1(ShipTo, f.shipToNumber);
    }
    if f.customerNumber != "" {
      assert t[1 + n] == N1(Buyer, f.customerNumber);
    }
  }

  /** Different rows get different control numbers. */
  lemma ControlNumberDistinct(i: nat, j: nat)
    requires i != j
    ensures ControlNumber(i) != ControlNumber(j)
  {
    ZeroPadValue(1000 + i, 4);
    ZeroPadValue(1000 + j, 4);
  }

  /** For the first 9000 rows the control number is four digits. */
  lemma ControlNumberShape(idx: nat)
    requires idx < 9000
    ensures |ControlNumber(idx)| == 4 && AllDigits(ControlNumber(idx))
  {
    FourDigits(1000 + idx);
  }

  /** The control numbers of the `ST` headers of `segs`, in order. */
  function Controls(segs: seq<X12Segment>): seq<string>
    decreases |segs|
  {
    if segs == [] then []
    else Controls(segs[..|segs| - 1]) + (if segs[|segs| - 1].ST? then [segs[|segs| - 1].control] else [])
  }

  lemma {:induction false} ControlsAppend(a: seq<X12Segment>, b: seq<X12Segment>)
    ensures Controls(a + b) == Controls(a) + Controls(b)
    decreases |b|
  {
    if b == [] {
      assert a + b == a;
    } else {
      var b' := b[..|b| - 1];
      assert (a + b)[..|a + b| - 1] == a + b';
      assert (a + b)[|a + b| - 1] == b[|b| - 1];
      ControlsAppend(a, b');
    }
  }

  /** A transaction set has one `ST`, with its row's control number. */
  lemma TransactionControls(f: OrderFields, idx: nat, currentDate: string, deliveryDate: string)
    ensures Controls(Transaction(f, idx, currentDate, deliveryDate)) == [ControlNumber(idx)]
  {
    var head := [ST(ControlNumber(idx))];
    var rest := Transaction(f, idx, currentDate, deliveryDate)[1..];
    assert Transaction(f, idx, currentDate, deliveryDate) == head + rest;
    assert forall k :: 0 <= k < |rest| ==> !rest[k].ST?;
    NoControls(rest);
    ControlsAppend(head, rest);
    assert Controls(head) == Controls([]) + [ControlNumber(idx)];
  }

  lemma {:induction false} NoControls(segs: seq<X12Segment>)
    requires forall k :: 0 <= k < |segs| ==> !segs[k].ST?
    ensures Controls(segs) == []
    decreases |segs|
  {
    if segs != [] {
      NoControls(segs[..|segs| - 1]);
    }
  }

  /** The control numbers of the first `n` rows, in row order. */
  function ControlNumbers(n: nat): (r: seq<string>)
    ensures |r| == n
  {
    Tabulate(ControlNumber, n)
  }

  lemma ControlNumbersAt(n: nat, i: nat)
    requires i < n
    ensures ControlNumbers(n)[i] == ControlNumber(i)
  {
    TabulateAt(ControlNumber, n, i);
  }

  lemma ControlsSnoc(before: seq<X12Segment>, t: seq<X12Segment>, n: nat)
    requires Controls(before) == ControlNumbers(n)
    requires Controls(t) == [ControlNumber(n)]
    ensures Controls(before + t) == ControlNumbers(n + 1)
  {
    ControlsAppend(before, t);
  }

  lemma RowControls(rows: seq<Row>, i: nat, today: Date)
    requires i < |rows|
    ensures Controls(RowTransaction(rows, i, today)) == [ControlNumber(i)]
  {
    var f := FieldsOf(rows[i], i);
    TransactionControls(f, i, FormatYmd(today), DeliveryDate(f.deliveryDate, today));
  }

  /** Exactly one transaction set per row, in row order: the `ST` control
      numbers of the first `n` rows' segments are the rows' control numbers. */
  lemma DocumentControls(rows: seq<Row>, n: nat, today: Date)
    requires n <= |rows|
    ensures Controls(TransactionsUpTo(rows, n, today)) == ControlNumbers(n)
  {
    var k := 0;
    while k < n
      invariant k <= n
      invariant Controls(TransactionsUpTo(rows, k, today)) == ControlNumbers(k)
    {
      RowControlsSnoc(rows, k, today);
      k := k + 1;
    }
  }

  /** One more row adds its own control number. */
  lemma RowControlsSnoc(rows: seq<Row>, i: nat, today: Date)
    requires i < |rows|
    requires Controls(TransactionsUpTo(rows, i, today)) == ControlNumbers(i)
    ensures Controls(TransactionsUpTo(rows, i + 1, today)) == ControlNumbers(i + 1)
  {
    RowControls(rows, i, today);
    ControlsSnoc(TransactionsUpTo(rows, i, today), RowTransaction(rows, i, today), i);
  }

  /** `q` followed by the `N1` segment of the party when its number is non-empty. */
  function WithParty(q: string, p: Party, id: string): string
  {
    if id != "" then q + SegmentText(N1(p, id)) else q
  }

  lemma EmitParty(q: string, p: Party, id: string)
    ensures Emit(q, PartyLine(p, id)) == WithParty(q, p, id)
  {
    if id != "" {
      EmitSnoc(q, [], N1(p, id));
    }
  }

  lemma EmitPair(q: string, a: X12Segment, b: X12Segment)
    ensures Emit(q, [a, b]) == q + SegmentText(a) + SegmentText(b)
  {
    EmitSnoc(q, [], a);
    EmitSnoc(q, [a], b);
    assert [a] + [b] == [a, b];
  }

  lemma EmitFour(q: string, a: X12Segment, b: X12Segment, c: X12Segment, d: X12Segment)
    ensures Emit(q, [a, b, c, d]) == q + SegmentText(a) + SegmentText(b) + SegmentText(c) + SegmentText(d)
  {
    EmitPair(q, a, b);
    EmitSnoc(q, [a, b], c);
    assert [a, b] + [c] == [a, b, c];
    EmitSnoc(q, [a, b, c], d);
    assert [a, b, c] + [d] == [a, b, c, d];
  }

  /** Writing the segments of a transaction set is writing its segment texts
      in order, the `N1` lines only for non-empty numbers. */
  lemma EmitTransaction(q: string, f: OrderFields, idx: nat, currentDate: string, deliveryDate: string)
    ensures Emit(q, Transaction(f, idx, currentDate, deliveryDate))
         == WithParty(WithParty(q + SegmentText(ST(ControlNumber(idx))) + SegmentText(BEG(f.poNumber, currentDate)),
                                ShipTo, f.shipToNumber), Buyer, f.customerNumber)
          + SegmentText(DTM(deliveryDate)) + SegmentText(PO1(f.orderQuantity, f.customerPartNumber))
          + SegmentText(CTT) + SegmentText(SE(SegmentCount(f), ControlNumber(idx)))
  {
    var head := [ST(ControlNumber(idx)), BEG(f.poNumber, currentDate)];
    var ship, buyer := PartyLine(ShipTo, f.shipToNumber), PartyLine(Buyer, f.customerNumber);
    var tail := [DTM(deliveryDate), PO1(f.orderQuantity, f.customerPartNumber), CTT, SE(SegmentCount(f), ControlNumber(idx))];
    EmitAppend(q, head + ship + buyer, tail);
    EmitAppend(q, head + ship, buyer);
    EmitAppend(q, head, ship);
    EmitPair(q, head[0], head[1]);
    EmitParty(Emit(q, head), ShipTo, f.shipToNumber);
    EmitParty(Emit(q, head + ship), Buyer, f.customerNumber);
    EmitFour(Emit(q, head + ship + buyer), tail[0], tail[1], tail[2], tail[3]);
  }

  /** Writes the transaction set of a row with fields `f` at position `idx`
      (lines 229-279). */
  method WriteTransactionSet(buffer: StringBuffer, f: OrderFields, idx: nat, currentDate: string,
                             formattedDeliveryDate: string)
    modifies buffer
    ensures buffer.text == Emit(old(buffer.text), Transaction(f, idx, currentDate, formattedDeliveryDate))
  {
    EmitTransaction(buffer.text, f, idx, currentDate, formattedDeliveryDate);
    var controlNumber := ZeroPad(1000 + idx, 4);
    buffer.Write("ST*850*" + controlNumber + "\n");
    buffer.Write("BEG*00*SA*" + f.poNumber + "**" + currentDate + "\n");
    if f.shipToNumber != "" {
      buffer.Write("N1*ST**92*" + f.shipToNumber + "\n");
    }
    if f.customerNumber != "" {
      buffer.Write("N1*BY**92*" + f.customerNumber + "\n");
    }
    buffer.Write("DTM*002*" + formattedDeliveryDate + "\n");
    buffer.Write("PO1*1*" + f.orderQuantity + "*KG***BP*" + f.customerPartNumber + "\n");
    buffer.Write("CTT*1\n");
    var segmentCount := 5;
    if f.shipToNumber != "" {
      segmentCount := segmentCount + 1;
    }
    if f.customerNumber != "" {
      segmentCount := segmentCount + 1;
    }
    buffer.Write("SE*" + Decimal(segmentCount) + "*" + controlNumber + "\n\n");
  }

  /** One pass of the loop at lines 220-279: the fields of `rows[idx]`, then
      its transaction set. */
  method WriteTransaction(buffer: StringBuffer, ghost p: string, rows: seq<Row>, idx: nat, today: Date)
    requires idx < |rows|
    requires buffer.text == Emit(p, TransactionsUpTo(rows, idx, today))
    modifies buffer
    ensures buffer.text == Emit(p, TransactionsUpTo(rows, idx + 1, today))
  {
    var row := rows[idx];
    var f := FieldsOf(row, idx);
    var currentDate := FormatYmd(today);
    var formattedDeliveryDate := FormatDeliveryDate(f.deliveryDate, today);
    WriteTransactionSet(buffer, f, idx, currentDate, formattedDeliveryDate);
    EmitAppend(p, TransactionsUpTo(rows, idx, today), RowTransaction(rows, idx, today));
  }

  /** The loop over the rows (lines 220-279): one transaction set per row, in order. */
  method WriteTransactions(buffer: StringBuffer, rows: seq<Row>, today: Date)
    modifies buffer
    ensures buffer.text == Emit(old(buffer.text), TransactionsUpTo(rows, |rows|, today))
  {
    ghost var start := buffer.text;
    var idx := 0;
    while idx < |rows|
      invariant 0 <= idx <= |rows|
      invariant buffer.text == Emit(start, TransactionsUpTo(rows, idx, today))
    {
      WriteTransaction(buffer, start, rows, idx, today);
      idx := idx + 1;
    }
  }

  /** `generate_ansi_x12_850_data`: `None` for an empty table, otherwise the
      transaction sets of the rows, in row order. */
  method GenerateAnsiX12850Data(rows: seq<Row>, today: Date) returns (r: Option<string>)
    ensures r.None? <==> EmptyTable(rows)
    ensures r.Some? ==> r.value == X12Document(rows, today)
  {
    if EmptyTable(rows) {
      return None;
    }
    var buffer := new StringBuffer();
    WriteTransactions(buffer, rows, today);
    var ansiData := buffer.GetValue();
    r := Some(ansiData);
  }
}
