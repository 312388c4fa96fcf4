/** The row fields and delivery dates shared by the two order serialisers
    of `sap_integration.py`, and the first of them, `generate_idoc_xml_data`:
    rows of the edited order table become one SAP ORDERS05 IDoc-XML text,
    written line by line into an `io.StringIO` buffer. Each line is modelled
    as an `XmlLine` value; `Render` gives its text, and the writer methods are
    proved to write the rendering of the line lists `HeaderLines`, `ItemLines`
    and `BlockLines`, about which the properties of a block are stated. */
module SapIntegration {
  import opened Common
  import opened Dates
  import opened TextIO

  /** One row of the order table: column name to cell text. */
  type Row = map<string, string>

  /** pandas `df.empty`: the table has no rows, or no columns (a column
      absent from every row map is absent from the table). */
  predicate EmptyTable(rows: seq<Row>)
  {
    |rows| == 0 || forall i | 0 <= i < |rows| :: rows[i] == map[]
  }

  /** `row.get(column, default)`. */
  function Get(row: Row, column: string, default: string): string
  {
    if column in row then row[column] else default
  }

  /** The cells both generators read, with the defaults they fall back to
      when a column is missing (lines 30-36 and 222-227). `idx` is the row's
      position, which is its index label in a freshly built table. */
  datatype OrderFields = OrderFields(
    poNumber: string,
    customerNumber: string,
    shipToNumber: string,
    deliveryDate: string,
    customerPartNumber: string,
    orderQuantity: string,
    customerName: string)

  function FieldsOf(row: Row, idx: nat): OrderFields
  {
    OrderFields(
      Get(row, "Purchase Order Number", "PO" + Decimal(10000 + idx)),
      Get(row, "Customer Number", ""),
      Get(row, "Ship To Number", ""),
      Get(row, "Required Delivery Date", ""),
      Get(row, "Customer Part Number", ""),
      Get(row, "Order Quantity", "1"),
      Get(row, "Customer Name", ""))
  }

  /** The delivery date written into a document (lines 39-48 and 230-239):
      today's date, unless the cell is non-empty and `strptime` accepts it as
      `%Y-%m-%d`, in which case its `%Y%m%d` form. */
  function DeliveryDate(raw: string, today: Date): string
  {
    if raw != "" then
      match ParseIsoDate(raw)
      case Some(d) => FormatYmd(d)
      case None => FormatYmd(today)
    else
      FormatYmd(today)
  }

  /** `DeliveryDate` of a date written in the canonical `YYYY-MM-DD` form is the
      same text with its two hyphens removed. */
  lemma DeliveryDateIso(d: Date, today: Date)
    requires ValidDate(d)
    ensures DeliveryDate(IsoText(d), today) == FormatYmd(d)
    ensures DeliveryDate(IsoText(d), today) == IsoText(d)[..4] + IsoText(d)[5..7] + IsoText(d)[8..]
  {
    ParseIsoText(d);
    IsoToYmd(d);
  }

  /** An empty cell, or one `strptime` rejects, falls back to today's date. */
  lemma DeliveryDateFallback(raw: string, today: Date)
    requires raw == "" || ParseIsoDate(raw).None?
    ensures DeliveryDate(raw, today) == FormatYmd(today)
  {
  }

  /** Whichever way it is obtained, the date written is eight digits when
      today's date is a real date. */
  lemma DeliveryDateShape(raw: string, today: Date)
    requires ValidDate(today)
    ensures |DeliveryDate(raw, today)| == 8 && AllDigits(DeliveryDate(raw, today))
  {
    IsoToYmd(today);
    if raw != "" && ParseIsoDate(raw).Some? {
      IsoToYmd(ParseIsoDate(raw).value);
    }
  }

  // ---------------------------------------------------------------------------
  // IDoc-XML (lines 7-140)
  // ---------------------------------------------------------------------------

  /** The segments of an ORDERS05 block. */
  datatype Segment = E1EDK01 | E1EDK14 | E1EDKA1 | E1EDK02 | E1EDP01 | E1EDP02 | E1EDP03 | E1EDPA1 | E1EDP19

  /** The element lines whose content is the same in every block. */
  datatype FixedElement =
    | Action0 | CurrencyUsd | Qualf012 | Qualf019 | Qualf001 | OrgidOr | OrgidB2b
    | ParvwAg | ParvwWe | ParvwEn | LifnrVendor | Posex1 | MeneeKg | Zeile1 | Iddat002

  /** The places a row's values are written into: the `BEGIN` attribute of
      `<IDOC>` and the elements whose content depends on the row. */
  datatype Element = BEGIN | PARTN | NAME1 | BELNR | DATUM | MENGE | IDTNR

  /** One line of an IDoc block: the `<IDOC>` tags, a segment's opening or
      closing tag, an element with fixed content, or an element carrying a
      row's value. */
  datatype XmlLine =
    | IdocBegin(idx: nat)
    | IdocEnd
    | Open(segment: Segment)
    | Close(segment: Segment)
    | Fixed(fixed: FixedElement)
    | Field(element: Element, value: string)

  function OpenTag(s: Segment): string
  {
    match s
    case E1EDK01 => "    <E1EDK01>\n"
    case E1EDK14 => "    <E1EDK14>\n"
    case E1EDKA1 => "    <E1EDKA1>\n"
    case E1EDK02 => "    <E1EDK02>\n"
    case E1EDP01 => "    <E1EDP01>\n"
    case E1EDP02 => "    <E1EDP02>\n"
    case E1EDP03 => "    <E1EDP03>\n"
    case E1EDPA1 => "    <E1EDPA1>\n"
    case E1EDP19 => "    <E1EDP19>\n"
  }

  function CloseTag(s: Segment): string
  {
    match s
    case E1EDK01 => "    </E1EDK01>\n"
    case E1EDK14 => "    </E1EDK14>\n"
    case E1EDKA1 => "    </E1EDKA1>\n"
    case E1EDK02 => "    </E1EDK02>\n"
    case E1EDP01 => "    </E1EDP01>\n"
    case E1EDP02 => "    </E1EDP02>\n"
    case E1EDP03 => "    </E1EDP03>\n"
    case E1EDPA1 => "    </E1EDPA1>\n"
    case E1EDP19 => "    </E1EDP19>\n"
  }

  function FixedText(c: FixedElement): string
  {
    match c
    case Action0 => "      <ACTION>0</ACTION>\n"
    case CurrencyUsd => "      <CURRENCY>USD</CURRENCY>\n"
    case Qualf012 => "      <QUALF>012</QUALF>\n"
    case Qualf019 => "      <QUALF>019</QUALF>\n"
    case Qualf001 => "      <QUALF>001</QUALF>\n"
    case OrgidOr => "      <ORGID>OR</ORGID>\n"
    case OrgidB2b => "      <ORGID>B2B</ORGID>\n"
    case ParvwAg => "      <PARVW>AG</PARVW>\n"
    case ParvwWe => "      <PARVW>WE</PARVW>\n"
    case ParvwEn => "      <PARVW>EN</PARVW>\n"
    case LifnrVendor => "      <LIFNR>Vendor number at customer location</LIFNR>\n"
    case Posex1 => "      <POSEX>1</POSEX>\n"
    case MeneeKg => "      <MENEE>KG</MENEE>\n"
    case Zeile1 => "      <ZEILE>1</ZEILE>\n"
    case Iddat002 => "      <IDDAT>002</IDDAT>\n"
  }

  /** The opening tag of an element line, indented under its segment. */
  function FieldOpen(e: Element): string
  {
    match e
    case BEGIN => ""
    case PARTN => "      <PARTN>"
    case NAME1 => "      <NAME1>"
    case BELNR => "      <BELNR>"
    case DATUM => "      <DATUM>"
    case MENGE => "      <MENGE>"
    case IDTNR => "      <IDTNR>"
  }

  /** The closing tag of an element line and its newline. */
  function FieldClose(e: Element): string
  {
    match e
    case BEGIN => ""
    case PARTN => "</PARTN>\n"
    case NAME1 => "</NAME1>\n"
    case BELNR => "</BELNR>\n"
    case DATUM => "</DATUM>\n"
    case MENGE => "</MENGE>\n"
    case IDTNR => "</IDTNR>\n"
  }

  /** The text `write` receives for a line. */
  function Render(l: XmlLine): string
  {
    match l
    case IdocBegin(idx) => IdocOpen(idx)
    case IdocEnd => IdocClose
    case Open(s) => OpenTag(s)
    case Close(s) => CloseTag(s)
    case Fixed(c) => FixedText(c)
    case Field(e, v) => FieldOpen(e) + v + FieldClose(e)
  }

  function Rendered(ls: seq<XmlLine>): (r: seq<string>)
    ensures |r| == |ls|
  {
    seq(|ls|, k requires 0 <= k < |ls| => Render(ls[k]))
  }

  /** The text of a sequence of lines written one after another. */
  function RenderLines(ls: seq<XmlLine>): string
  {
    Concat(Rendered(ls))
  }

  lemma RenderAppend(p: string, a: seq<XmlLine>, b: seq<XmlLine>)
    ensures p + RenderLines(a) + RenderLines(b) == p + RenderLines(a + b)
  {
    RenderedAppend(a, b);
    ConcatAppend(Rendered(a), Rendered(b));
    assert p + RenderLines(a) + RenderLines(b) == p + (RenderLines(a) + RenderLines(b));
  }

  lemma RenderedAppend(a: seq<XmlLine>, b: seq<XmlLine>)
    ensures Rendered(a + b) == Rendered(a) + Rendered(b)
  {
    forall k | 0 <= k < |a + b|
      ensures Rendered(a + b)[k] == (Rendered(a) + Rendered(b))[k]
    {
      if k < |a| {
        assert (a + b)[k] == a[k];
      } else {
        assert (a + b)[k] == b[k - |a|];
      }
    }
  }

  lemma RenderOne(p: string, l: XmlLine)
    ensures p + Render(l) == p + RenderLines([l])
  {
    assert Rendered([l]) == [Render(l)];
    Lines1(p, Render(l));
  }

  /** What line `l` writes into `e`: the document number for the `BEGIN`
      attribute of an `<IDOC>` line, the content of an `e` element, and
      nothing for any other line. */
  function ValueOf(l: XmlLine, e: Element): seq<string>
  {
    match l
    case IdocBegin(idx) => if e == BEGIN then [DocNumber(idx)] else []
    case Field(e', v) => if e' == e then [v] else []
    case _ => []
  }

  /** `ValueOf` for a fixed element, as a function of the line. */
  function ValueIn(e: Element): XmlLine -> seq<string>
  {
    l => ValueOf(l, e)
  }

  /** What the lines of `ls` write into `e`, in order. */
  function ValuesOf(ls: seq<XmlLine>, e: Element): seq<string>
  {
    Flat(ValueIn(e), ls)
  }

  lemma Values4(ls: seq<XmlLine>, e: Element)
    requires |ls| == 4
    ensures ValuesOf(ls, e) == ValueOf(ls[0], e) + (ValueOf(ls[1], e) + (ValueOf(ls[2], e) + ValueOf(ls[3], e)))
  {
    Flat4(ValueIn(e), ls);
  }

  lemma Values5(ls: seq<XmlLine>, e: Element)
    requires |ls| == 5
    ensures ValuesOf(ls, e)
         == ValueOf(ls[0], e) + (ValueOf(ls[1], e) + (ValueOf(ls[2], e) + (ValueOf(ls[3], e) + ValueOf(ls[4], e))))
  {
    Flat5(ValueIn(e), ls);
  }

  lemma Values6(ls: seq<XmlLine>, e: Element)
    requires |ls| == 6
    ensures ValuesOf(ls, e) == ValueOf(ls[0], e) + (ValueOf(ls[1], e) + (ValueOf(ls[2], e) + (ValueOf(ls[3], e)
      + (ValueOf(ls[4], e) + ValueOf(ls[5], e)))))
  {
    Flat6(ValueIn(e), ls);
  }

  lemma ValuesAppend(a: seq<XmlLine>, b: seq<XmlLine>, e: Element)
    ensures ValuesOf(a + b, e) == ValuesOf(a, e) + ValuesOf(b, e)
  {
    FlatAppend(ValueIn(e), a, b);
  }

  const XmlDeclaration: string := "<?xml version=\"1.0\" encoding=\"UTF-8\"?>\n"
  const IdocHeader: string := XmlDeclaration + "<ORDERS05>\n"
  const IdocFooter: string := "</ORDERS05>\n"
  const IdocClose: string := "  </IDOC>\n"

  /** `f"DOC{1000 + idx:04d}"`. */
  function DocNumber(idx: nat): string
  {
    "DOC" + ZeroPad(1000 + idx, 4)
  }

  function IdocOpen(idx: nat): string
  {
    "  <IDOC BEGIN=\"" + DocNumber(idx) + "\">\n"
  }

  /** Header general data (lines 56-60). */
  function E1EDK01Lines(): seq<XmlLine>
  {
    [Open(E1EDK01), Fixed(Action0), Fixed(CurrencyUsd),
     Close(E1EDK01)]
  }

  /** Organisational data: order type `OR` (lines 62-66). */
  function OrderTypeLines(): seq<XmlLine>
  {
    [Open(E1EDK14), Fixed(Qualf012), Fixed(OrgidOr),
     Close(E1EDK14)]
  }

  /** Organisational data: PO type `B2B` (lines 68-72). */
  function PoTypeLines(): seq<XmlLine>
  {
    [Open(E1EDK14), Fixed(Qualf019), Fixed(OrgidB2b),
     Close(E1EDK14)]
  }

  /** The sold-to partner (lines 74-79). */
  function SoldToLines(customerNumber: string): seq<XmlLine>
  {
    [Open(E1EDKA1), Fixed(ParvwAg), Field(PARTN, customerNumber),
     Fixed(LifnrVendor), Close(E1EDKA1)]
  }

  /** The ship-to partner, with `<NAME1>` before the closing tag for a
      non-empty name (lines 81-88). */
  function ShipToLines(shipToNumber: string, name: string): seq<XmlLine>
  {
    if name != "" then
      [Open(E1EDKA1), Fixed(ParvwWe), Field(PARTN, shipToNumber),
       Fixed(LifnrVendor), Field(NAME1, name),
       Close(E1EDKA1)]
    else
      [Open(E1EDKA1), Fixed(ParvwWe), Field(PARTN, shipToNumber),
       Fixed(LifnrVendor), Close(E1EDKA1)]
  }

  /** Header reference data: the customer PO and the delivery date (lines 90-95). */
  function E1EDK02Lines(po: string, date: string): seq<XmlLine>
  {
    [Open(E1EDK02), Fixed(Qualf001), Field(BELNR, po), Field(DATUM, date),
     Close(E1EDK02)]
  }

  /** Item data: position 1, the quantity in KG (lines 97-102). */
  function E1EDP01Lines(quantity: string): seq<XmlLine>
  {
    [Open(E1EDP01), Fixed(Posex1), Field(MENGE, quantity),
     Fixed(MeneeKg), Close(E1EDP01)]
  }

  /** Item reference data: the customer PO, line 1 and the date (lines 104-110). */
  function E1EDP02Lines(po: string, date: string): seq<XmlLine>
  {
    [Open(E1EDP02), Fixed(Qualf001), Field(BELNR, po),
     Fixed(Zeile1), Field(DATUM, date), Close(E1EDP02)]
  }

  /** Item date: the requested delivery date (lines 112-116). */
  function E1EDP03Lines(date: string): seq<XmlLine>
  {
    [Open(E1EDP03), Fixed(Iddat002), Field(DATUM, date), Close(E1EDP03)]
  }

  /** Item partner: the end user (lines 118-122). */
  function E1EDPA1Lines(customerNumber: string): seq<XmlLine>
  {
    [Open(E1EDPA1), Fixed(ParvwEn), Field(PARTN, customerNumber),
     Close(E1EDPA1)]
  }

  /** Item object: the customer's material number (lines 124-128). */
  function E1EDP19Lines(partNumber: string): seq<XmlLine>
  {
    [Open(E1EDP19), Fixed(Qualf001), Field(IDTNR, partNumber),
     Close(E1EDP19)]
  }

  /** The header segments E1EDK01 to E1EDK02 (lines 56-95). */
  function HeaderLines(f: OrderFields, date: string): seq<XmlLine>
  {
    E1EDK01Lines() + OrderTypeLines() + PoTypeLines() + SoldToLines(f.customerNumber)
      + ShipToLines(f.shipToNumber, f.customerName) + E1EDK02Lines(f.poNumber, date)
  }

  /** The item segments E1EDP01 to E1EDP19 (lines 97-128). */
  function ItemLines(f: OrderFields, date: string): seq<XmlLine>
  {
    E1EDP01Lines(f.orderQuantity) + E1EDP02Lines(f.poNumber, date) + E1EDP03Lines(date)
      + E1EDPA1Lines(f.customerNumber) + E1EDP19Lines(f.customerPartNumber)
  }

  /** The block of the row at position `idx` (lines 51-131). */
  function BlockLines(f: OrderFields, idx: nat, date: string): seq<XmlLine>
  {
    [IdocBegin(idx)] + HeaderLines(f, date) + ItemLines(f, date) + [IdocEnd]
  }

  /** The block of `rows[i]`, with its fields and delivery date. */
  function RowBlock(rows: seq<Row>, i: nat, today: Date): seq<XmlLine>
    requires i < |rows|
  {
    var f := FieldsOf(rows[i], i);
    BlockLines(f, i, DeliveryDate(f.deliveryDate, today))
  }

  /** The lines of the blocks of the first `n` rows, in row order. */
  function BlocksUpTo(rows: seq<Row>, n: nat, today: Date): seq<XmlLine>
    requires n <= |rows|
  {
    if n == 0 then [] else BlocksUpTo(rows, n - 1, today) + RowBlock(rows, n - 1, today)
  }

  /** The whole IDoc-XML text for a non-empty table: the XML declaration and
      `<ORDERS05>`, one block per row in row order, and `</ORDERS05>`. */
  function IdocXml(rows: seq<Row>, today: Date): string
  {
    IdocHeader + RenderLines(BlocksUpTo(rows, |rows|, today)) + IdocFooter
  }

  /** The IDoc text opens with the XML declaration and `<ORDERS05>` and
      ends with `</ORDERS05>` (lines 24-25 and 134). */
  lemma IdocXmlFrame(rows: seq<Row>, today: Date)
    ensures var x := IdocXml(rows, today);
      |x| >= |IdocHeader| + |IdocFooter|
      && x[..|IdocHeader|] == IdocHeader && x[|x| - |IdocFooter|..] == IdocFooter
      && IdocHeader[..|XmlDeclaration|] == XmlDeclaration
  {
    FrameSlices(IdocHeader, RenderLines(BlocksUpTo(rows, |rows|, today)), IdocFooter);
    FrameSlices(XmlDeclaration, "<ORDERS05>\n", "");
  }

  /** The document numbers of the first `n` rows, in row order. */
  function DocNumbers(n: nat): (r: seq<string>)
    ensures |r| == n
  {
    Tabulate(DocNumber, n)
  }

  /** Exactly one `<IDOC>` block per row, in row order: the `BEGIN`
      attributes of the first `n` blocks are the rows' document numbers. */
  lemma RowNumber(rows: seq<Row>, i: nat, today: Date)
    requires i < |rows|
    ensures ValuesOf(RowBlock(rows, i, today), BEGIN) == [DocNumber(i)]
  {
    var f := FieldsOf(rows[i], i);
    BlockNumber(f, i, DeliveryDate(f.deliveryDate, today));
  }

  /** The `i`-th of them belongs to row `i`. */
  lemma DocNumbersAt(n: nat, i: nat)
    requires i < n
    ensures DocNumbers(n)[i] == DocNumber(i)
  {
    TabulateAt(DocNumber, n, i);
  }

  lemma NumbersSnoc(before: seq<XmlLine>, block: seq<XmlLine>, n: nat)
    requires ValuesOf(before, BEGIN) == DocNumbers(n) && ValuesOf(block, BEGIN) == [DocNumber(n)]
    ensures ValuesOf(before + block, BEGIN) == DocNumbers(n + 1)
  {
    ValuesAppend(before, block, BEGIN);
  }

  lemma {:induction false} DocumentNumbers(rows: seq<Row>, n: nat, today: Date)
    requires n <= |rows|
    ensures ValuesOf(BlocksUpTo(rows, n, today), BEGIN) == DocNumbers(n)
  {
    if n > 0 {
      DocumentNumbers(rows, n - 1, today);
      RowNumber(rows, n - 1, today);
      NumbersSnoc(BlocksUpTo(rows, n - 1, today), RowBlock(rows, n - 1, today), n - 1);
    }
  }

  /** A block opens with its row's document number and closes with `</IDOC>`;
      it has 52 lines, 53 with a customer name. */
  lemma BlockFrame(f: OrderFields, idx: nat, date: string)
    ensures var b := BlockLines(f, idx, date);
      |b| == (if f.customerName != "" then 53 else 52)
      && b[0] == IdocBegin(idx) && b[|b| - 1] == IdocEnd
  {
  }

  /** Document numbers are `DOC` and four digits for the first 9000 rows. */
  lemma DocNumberShape(idx: nat)
    requires idx < 9000
    ensures DocNumber(idx) == "DOC" + Decimal(1000 + idx) && |DocNumber(idx)| == 7
  {
    FourDigits(1000 + idx);
  }

  /** Different rows get different document numbers. */
  lemma DocNumberDistinct(i: nat, j: nat)
    requires i != j
    ensures DocNumber(i) != DocNumber(j)
  {
    ZeroPadInjective(1000 + i, 1000 + j, 4);
    PrefixInjective("DOC", ZeroPad(1000 + i, 4), ZeroPad(1000 + j, 4));
  }

  /** The three fixed header segments write no field at all. */
  lemma ControlValues(e: Element)
    ensures ValuesOf(E1EDK01Lines() + OrderTypeLines() + PoTypeLines(), e) == []
  {
    assert ValuesOf(E1EDK01Lines(), e) == [] by { E1EDK01Values(e); }
    assert ValuesOf(OrderTypeLines(), e) == [] by { OrderTypeValues(e); }
    assert ValuesOf(PoTypeLines(), e) == [] by { PoTypeValues(e); }
    ValuesAppend(E1EDK01Lines() + OrderTypeLines(), PoTypeLines(), e);
    ValuesAppend(E1EDK01Lines(), OrderTypeLines(), e);
  }

  lemma HeaderValues(f: OrderFields, date: string, e: Element)
    ensures ValuesOf(HeaderLines(f, date), e)
         == ValuesOf(SoldToLines(f.customerNumber), e) + ValuesOf(ShipToLines(f.shipToNumber, f.customerName), e)
          + ValuesOf(E1EDK02Lines(f.poNumber, date), e)
  {
    var a := E1EDK01Lines() + OrderTypeLines() + PoTypeLines();
    var d, g, h := SoldToLines(f.customerNumber), ShipToLines(f.shipToNumber, f.customerName), E1EDK02Lines(f.poNumber, date);
    ControlValues(e);
    ValuesAppend(a + d + g, h, e);
    ValuesAppend(a + d, g, e);
    ValuesAppend(a, d, e);
  }

  lemma ItemValues(f: OrderFields, date: string, e: Element)
    ensures ValuesOf(ItemLines(f, date), e)
         == ValuesOf(E1EDP01Lines(f.orderQuantity), e) + ValuesOf(E1EDP02Lines(f.poNumber, date), e)
          + ValuesOf(E1EDP03Lines(date), e) + ValuesOf(E1EDPA1Lines(f.customerNumber), e)
          + ValuesOf(E1EDP19Lines(f.customerPartNumber), e)
  {
    var a, b, c := E1EDP01Lines(f.orderQuantity), E1EDP02Lines(f.poNumber, date), E1EDP03Lines(date);
    var d, g := E1EDPA1Lines(f.customerNumber), E1EDP19Lines(f.customerPartNumber);
    ValuesAppend(a + b + c + d, g, e);
    ValuesAppend(a + b + c, d, e);
    ValuesAppend(a + b, c, e);
    ValuesAppend(a, b, e);
  }

  lemma BlockValues(f: OrderFields, idx: nat, date: string, e: Element)
    ensures ValuesOf(BlockLines(f, idx, date), e)
         == ValueOf(IdocBegin(idx), e) + ValuesOf(HeaderLines(f, date), e) + ValuesOf(ItemLines(f, date), e)
  {
    var o, c := [IdocBegin(idx)], [IdocEnd];
    assert ValuesOf(o, e) == ValueOf(IdocBegin(idx), e) by {
      FlatFromLast(ValueIn(e), o);
    }
    assert ValuesOf(c, e) == [] by {
      FlatFromLast(ValueIn(e), c);
    }
    FramedValues(o, HeaderLines(f, date), ItemLines(f, date), c, e);
  }

  /** What lines framed by `o` and `c` write, when `c` writes nothing. */
  lemma FramedValues(o: seq<XmlLine>, h: seq<XmlLine>, i: seq<XmlLine>, c: seq<XmlLine>, e: Element)
    requires ValuesOf(c, e) == []
    ensures ValuesOf(o + h + i + c, e) == ValuesOf(o, e) + ValuesOf(h, e) + ValuesOf(i, e)
  {
    ValuesAppend(o + h + i, c, e);
    ValuesAppend(o + h, i, e);
    ValuesAppend(o, h, e);
  }

  lemma E1EDK01Values(e: Element)
    ensures ValuesOf(E1EDK01Lines(), e) == []
  {
    Values4(E1EDK01Lines(), e);
  }

  lemma OrderTypeValues(e: Element)
    ensures ValuesOf(OrderTypeLines(), e) == []
  {
    Values4(OrderTypeLines(), e);
  }

  lemma PoTypeValues(e: Element)
    ensures ValuesOf(PoTypeLines(), e) == []
  {
    Values4(PoTypeLines(), e);
  }

  lemma SoldToValues(customerNumber: string, e: Element)
    ensures ValuesOf(SoldToLines(customerNumber), e) == ValueOf(Field(PARTN, customerNumber), e)
  {
    Values5(SoldToLines(customerNumber), e);
  }

  lemma E1EDK02Values(po: string, date: string, e: Element)
    ensures ValuesOf(E1EDK02Lines(po, date), e) == ValueOf(Field(BELNR, po), e) + ValueOf(Field(DATUM, date), e)
  {
    Values5(E1EDK02Lines(po, date), e);
  }

  lemma E1EDP01Values(quantity: string, e: Element)
    ensures ValuesOf(E1EDP01Lines(quantity), e) == ValueOf(Field(MENGE, quantity), e)
  {
    Values5(E1EDP01Lines(quantity), e);
  }

  lemma E1EDP02Values(po: string, date: string, e: Element)
    ensures ValuesOf(E1EDP02Lines(po, date), e) == ValueOf(Field(BELNR, po), e) + ValueOf(Field(DATUM, date), e)
  {
    Values6(E1EDP02Lines(po, date), e);
  }

  lemma E1EDP03Values(date: string, e: Element)
    ensures ValuesOf(E1EDP03Lines(date), e) == ValueOf(Field(DATUM, date), e)
  {
    Values4(E1EDP03Lines(date), e);
  }

  lemma E1EDPA1Values(customerNumber: string, e: Element)
    ensures ValuesOf(E1EDPA1Lines(customerNumber), e) == ValueOf(Field(PARTN, customerNumber), e)
  {
    Values4(E1EDPA1Lines(customerNumber), e);
  }

  lemma E1EDP19Values(partNumber: string, e: Element)
    ensures ValuesOf(E1EDP19Lines(partNumber), e) == ValueOf(Field(IDTNR, partNumber), e)
  {
    Values4(E1EDP19Lines(partNumber), e);
  }

  lemma ShipToValues(shipToNumber: string, name: string, e: Element)
    ensures ValuesOf(ShipToLines(shipToNumber, name), e)
         == ValueOf(Field(PARTN, shipToNumber), e) + (if name != "" then ValueOf(Field(NAME1, name), e) else [])
  {
    if name != "" {
      Values6(ShipToLines(shipToNumber, name), e);
    } else {
      Values5(ShipToLines(shipToNumber, name), e);
    }
  }

  lemma HeaderDates(f: OrderFields, date: string)
    ensures ValuesOf(HeaderLines(f, date), DATUM) == [date]
  {
    assert ValuesOf(SoldToLines(f.customerNumber), DATUM) == [] by { SoldToValues(f.customerNumber, DATUM); }
    assert ValuesOf(ShipToLines(f.shipToNumber, f.customerName), DATUM) == [] by {
      ShipToValues(f.shipToNumber, f.customerName, DATUM);
    }
    assert ValuesOf(E1EDK02Lines(f.poNumber, date), DATUM) == [date] by { E1EDK02Values(f.poNumber, date, DATUM); }
    HeaderValues(f, date, DATUM);
  }

  lemma ItemDates(f: OrderFields, date: string)
    ensures ValuesOf(ItemLines(f, date), DATUM) == [date, date]
  {
    ItemValues(f, date, DATUM);
    E1EDP01Values(f.orderQuantity, DATUM);
    E1EDP02Values(f.poNumber, date, DATUM);
    E1EDP03Values(date, DATUM);
    E1EDPA1Values(f.customerNumber, DATUM);
    E1EDP19Values(f.customerPartNumber, DATUM);
  }

  /** Each block writes the formatted delivery date three times, as the DATUM
      of E1EDK02, E1EDP02 and E1EDP03, and nowhere else. */
  lemma BlockDates(f: OrderFields, idx: nat, date: string)
    ensures ValuesOf(BlockLines(f, idx, date), DATUM) == [date, date, date]
    ensures ValuesOf(E1EDK02Lines(f.poNumber, date), DATUM) == [date]
    ensures ValuesOf(E1EDP02Lines(f.poNumber, date), DATUM) == [date]
    ensures ValuesOf(E1EDP03Lines(date), DATUM) == [date]
  {
    BlockValues(f, idx, date, DATUM);
    HeaderDates(f, date);
    ItemDates(f, date);
    E1EDK02Values(f.poNumber, date, DATUM);
    E1EDP02Values(f.poNumber, date, DATUM);
    E1EDP03Values(date, DATUM);
  }

  lemma HeaderNames(f: OrderFields, date: string)
    ensures ValuesOf(HeaderLines(f, date), NAME1) == ValuesOf(ShipToLines(f.shipToNumber, f.customerName), NAME1)
  {
    assert ValuesOf(SoldToLines(f.customerNumber), NAME1) == [] by { SoldToValues(f.customerNumber, NAME1); }
    assert ValuesOf(E1EDK02Lines(f.poNumber, date), NAME1) == [] by { E1EDK02Values(f.poNumber, date, NAME1); }
    HeaderValues(f, date, NAME1);
  }

  lemma ItemNames(f: OrderFields, date: string)
    ensures ValuesOf(ItemLines(f, date), NAME1) == []
  {
    ItemValues(f, date, NAME1);
    E1EDP01Values(f.orderQuantity, NAME1);
    E1EDP02Values(f.poNumber, date, NAME1);
    E1EDP03Values(date, NAME1);
    E1EDPA1Values(f.customerNumber, NAME1);
    E1EDP19Values(f.customerPartNumber, NAME1);
  }

  /** A block has one `<NAME1>`, in the ship-to segment and holding the
      customer name, when the name is non-empty, and none otherwise. */
  lemma BlockName(f: OrderFields, idx: nat, date: string)
    ensures f.customerName != "" ==> ValuesOf(ShipToLines(f.shipToNumber, f.customerName), NAME1) == [f.customerName]
    ensures f.customerName != "" ==> ValuesOf(BlockLines(f, idx, date), NAME1) == [f.customerName]
    ensures f.customerName == "" ==> ValuesOf(BlockLines(f, idx, date), NAME1) == []
  {
    BlockValues(f, idx, date, NAME1);
    HeaderNames(f, date);
    ItemNames(f, date);
    ShipToValues(f.shipToNumber, f.customerName, NAME1);
  }

  lemma HeaderPartners(f: OrderFields, date: string)
    ensures ValuesOf(HeaderLines(f, date), PARTN) == [f.customerNumber, f.shipToNumber]
  {
    assert ValuesOf(SoldToLines(f.customerNumber), PARTN) == [f.customerNumber] by {
      SoldToValues(f.customerNumber, PARTN);
    }
    assert ValuesOf(ShipToLines(f.shipToNumber, f.customerName), PARTN) == [f.shipToNumber] by {
      ShipToValues(f.shipToNumber, f.customerName, PARTN);
    }
    assert ValuesOf(E1EDK02Lines(f.poNumber, date), PARTN) == [] by { E1EDK02Values(f.poNumber, date, PARTN); }
    HeaderValues(f, date, PARTN);
  }

  lemma ItemPartners(f: OrderFields, date: string)
    ensures ValuesOf(ItemLines(f, date), PARTN) == [f.customerNumber]
  {
    ItemValues(f, date, PARTN);
    E1EDP01Values(f.orderQuantity, PARTN);
    E1EDP02Values(f.poNumber, date, PARTN);
    E1EDP03Values(date, PARTN);
    E1EDPA1Values(f.customerNumber, PARTN);
    E1EDP19Values(f.customerPartNumber, PARTN);
  }

  /** The partner numbers of a block, in order: sold-to, ship-to, end user. */
  lemma BlockPartners(f: OrderFields, idx: nat, date: string)
    ensures ValuesOf(BlockLines(f, idx, date), PARTN) == [f.customerNumber, f.shipToNumber, f.customerNumber]
  {
    BlockValues(f, idx, date, PARTN);
    HeaderPartners(f, date);
    ItemPartners(f, date);
  }

  lemma HeaderNumbers(f: OrderFields, date: string)
    ensures ValuesOf(HeaderLines(f, date), BEGIN) == []
  {
    HeaderValues(f, date, BEGIN);
    assert ValuesOf(SoldToLines(f.customerNumber), BEGIN) == [] by { SoldToValues(f.customerNumber, BEGIN); }
    assert ValuesOf(ShipToLines(f.shipToNumber, f.customerName), BEGIN) == [] by {
      ShipToValues(f.shipToNumber, f.customerName, BEGIN);
    }
    assert ValuesOf(E1EDK02Lines(f.poNumber, date), BEGIN) == [] by { E1EDK02Values(f.poNumber, date, BEGIN); }
  }

  lemma ItemNumbers(f: OrderFields, date: string)
    ensures ValuesOf(ItemLines(f, date), BEGIN) == []
  {
    ItemValues(f, date, BEGIN);
    E1EDP01Values(f.orderQuantity, BEGIN);
    E1EDP02Values(f.poNumber, date, BEGIN);
    E1EDP03Values(date, BEGIN);
    E1EDPA1Values(f.customerNumber, BEGIN);
    E1EDP19Values(f.customerPartNumber, BEGIN);
  }

  /** A block carries its own document number, once. */
  lemma BlockNumber(f: OrderFields, idx: nat, date: string)
    ensures ValuesOf(BlockLines(f, idx, date), BEGIN) == [DocNumber(idx)]
  {
    BlockValues(f, idx, date, BEGIN);
    HeaderNumbers(f, date);
    ItemNumbers(f, date);
  }

  /** Writing the texts of `ls` one after another onto `p`. */
  lemma Written4(p: string, ls: seq<XmlLine>, a: string, b: string, c: string, d: string)
    requires Rendered(ls) == [a, b, c, d]
    ensures p + a + b + c + d == p + RenderLines(ls)
  {
    Lines4(p, a, b, c, d);
  }

  /** Writing the texts of `ls` one after another onto `p`. */
  lemma Written5(p: string, ls: seq<XmlLine>, a: string, b: string, c: string, d: string, e: string)
    requires Rendered(ls) == [a, b, c, d, e]
    ensures p + a + b + c + d + e == p + RenderLines(ls)
  {
    Lines5(p, a, b, c, d, e);
  }

  /** Writing the texts of `ls` one after another onto `p`. */
  lemma Written6(p: string, ls: seq<XmlLine>, a: string, b: string, c: string, d: string, e: string, f: string)
    requires Rendered(ls) == [a, b, c, d, e, f]
    ensures p + a + b + c + d + e + f == p + RenderLines(ls)
  {
    Lines6(p, a, b, c, d, e, f);
  }

  /** The date computation both generators repeat (lines 39-48 and 230-239). */
  method FormatDeliveryDate(deliveryDate: string, today: Date) returns (formatted: string)
    ensures formatted == DeliveryDate(deliveryDate, today)
  {
    var currentDate := FormatYmd(today);
    formatted := currentDate;
    if deliveryDate != "" {
      var parsed := ParseIsoDate(deliveryDate);
      if parsed.Some? {
        formatted := FormatYmd(parsed.value);
      }
    }
  }

  method WriteE1EDK01(buffer: StringBuffer)
    modifies buffer
    ensures buffer.text == old(buffer.text) + RenderLines(E1EDK01Lines())
  {
    ghost var p := buffer.text;
    buffer.Write("    <E1EDK01>\n");
    buffer.Write("      <ACTION>0</ACTION>\n");
    buffer.Write("      <CURRENCY>USD</CURRENCY>\n");
    buffer.Write("    </E1EDK01>\n");
    E1EDK01Rendered();
    Written4(p, E1EDK01Lines(),
      "    <E1EDK01>\n",
      "      <ACTION>0</ACTION>\n",
      "      <CURRENCY>USD</CURRENCY>\n",
      "    </E1EDK01>\n");
  }

  /** The texts of the E1EDK01 lines, as the writer writes them. */
  lemma E1EDK01Rendered()
    ensures Rendered(E1EDK01Lines()) == [
      "    <E1EDK01>\n",
      "      <ACTION>0</ACTION>\n",
      "      <CURRENCY>USD</CURRENCY>\n",
      "    </E1EDK01>\n"]
  {
  }

  method WriteOrderType(buffer: StringBuffer)
    modifies buffer
    ensures buffer.text == old(buffer.text) + RenderLines(OrderTypeLines())
  {
    ghost var p := buffer.text;
    buffer.Write("    <E1EDK14>\n");
    buffer.Write("      <QUALF>012</QUALF>\n");
    buffer.Write("      <ORGID>OR</ORGID>\n");
    buffer.Write("    </E1EDK14>\n");
    OrderTypeRendered();
    Written4(p, OrderTypeLines(),
      "    <E1EDK14>\n",
      "      <QUALF>012</QUALF>\n",
      "      <ORGID>OR</ORGID>\n",
      "    </E1EDK14>\n");
  }

  /** The texts of the OrderType lines, as the writer writes them. */
  lemma OrderTypeRendered()
    ensures Rendered(OrderTypeLines()) == [
      "    <E1EDK14>\n",
      "      <QUALF>012</QUALF>\n",
      "      <ORGID>OR</ORGID>\n",
      "    </E1EDK14>\n"]
  {
  }

  method WritePoType(buffer: StringBuffer)
    modifies buffer
    ensures buffer.text == old(buffer.text) + RenderLines(PoTypeLines())
  {
    ghost var p := buffer.text;
    buffer.Write("    <E1EDK14>\n");
    buffer.Write("      <QUALF>019</QUALF>\n");
    buffer.Write("      <ORGID>B2B</ORGID>\n");
    buffer.Write("    </E1EDK14>\n");
    PoTypeRendered();
    Written4(p, PoTypeLines(),
      "    <E1EDK14>\n",
      "      <QUALF>019</QUALF>\n",
      "      <ORGID>B2B</ORGID>\n",
      "    </E1EDK14>\n");
  }

  /** The texts of the PoType lines, as the writer writes them. */
  lemma PoTypeRendered()
    ensures Rendered(PoTypeLines()) == [
      "    <E1EDK14>\n",
      "      <QUALF>019</QUALF>\n",
      "      <ORGID>B2B</ORGID>\n",
      "    </E1EDK14>\n"]
  {
  }

  method WriteSoldTo(buffer: StringBuffer, customerNumber: string)
    modifies buffer
    ensures buffer.text == old(buffer.text) + RenderLines(SoldToLines(customerNumber))
  {
    ghost var p := buffer.text;
    buffer.Write("    <E1EDKA1>\n");
    buffer.Write("      <PARVW>AG</PARVW>\n");
    buffer.Write("      <PARTN>" + customerNumber + "</PARTN>\n");
    buffer.Write("      <LIFNR>Vendor number at customer location</LIFNR>\n");
    buffer.Write("    </E1EDKA1>\n");
    SoldToRendered(customerNumber);
    Written5(p, SoldToLines(customerNumber),
      "    <E1EDKA1>\n",
      "      <PARVW>AG</PARVW>\n",
      "      <PARTN>" + customerNumber + "</PARTN>\n",
      "      <LIFNR>Vendor number at customer location</LIFNR>\n",
      "    </E1EDKA1>\n");
  }

  /** The texts of the SoldTo lines, as the writer writes them. */
  lemma SoldToRendered(customerNumber: string)
    ensures Rendered(SoldToLines(customerNumber)) == [
      "    <E1EDKA1>\n",
      "      <PARVW>AG</PARVW>\n",
      "      <PARTN>" + customerNumber + "</PARTN>\n",
      "      <LIFNR>Vendor number at customer location</LIFNR>\n",
      "    </E1EDKA1>\n"]
  {
  }

  lemma ShipToWritten(p: string, shipToNumber: string, customerName: string)
    ensures var common := p + "    <E1EDKA1>\n" + "      <PARVW>WE</PARVW>\n"
      + ("      <PARTN>" + shipToNumber + "</PARTN>\n") + "      <LIFNR>Vendor number at customer location</LIFNR>\n";
      p + RenderLines(ShipToLines(shipToNumber, customerName))
      == if customerName != "" then common + ("      <NAME1>" + customerName + "</NAME1>\n") + "    </E1EDKA1>\n"
         else common + "    </E1EDKA1>\n"
  {
    if customerName != "" {
      ShipToRendered(shipToNumber, customerName);
      Written6(p, ShipToLines(shipToNumber, customerName),
        "    <E1EDKA1>\n",
        "      <PARVW>WE</PARVW>\n",
        "      <PARTN>" + shipToNumber + "</PARTN>\n",
        "      <LIFNR>Vendor number at customer location</LIFNR>\n",
        "      <NAME1>" + customerName + "</NAME1>\n",
        "    </E1EDKA1>\n");
    } else {
      ShipToUnnamedRendered(shipToNumber);
      Written5(p, ShipToLines(shipToNumber, customerName),
        "    <E1EDKA1>\n",
        "      <PARVW>WE</PARVW>\n",
        "      <PARTN>" + shipToNumber + "</PARTN>\n",
        "      <LIFNR>Vendor number at customer location</LIFNR>\n",
        "    </E1EDKA1>\n");
    }
  }

  /** The texts of the ship-to lines with a customer name. */
  lemma ShipToRendered(shipToNumber: string, customerName: string)
    requires customerName != ""
    ensures Rendered(ShipToLines(shipToNumber, customerName)) == [
      "    <E1EDKA1>\n",
      "      <PARVW>WE</PARVW>\n",
      "      <PARTN>" + shipToNumber + "</PARTN>\n",
      "      <LIFNR>Vendor number at customer location</LIFNR>\n",
      "      <NAME1>" + customerName + "</NAME1>\n",
      "    </E1EDKA1>\n"]
  {
  }

  /** The texts of the ship-to lines without one. */
  lemma ShipToUnnamedRendered(shipToNumber: string)
    ensures Rendered(ShipToLines(shipToNumber, "")) == [
      "    <E1EDKA1>\n",
      "      <PARVW>WE</PARVW>\n",
      "      <PARTN>" + shipToNumber + "</PARTN>\n",
      "      <LIFNR>Vendor number at customer location</LIFNR>\n",
      "    </E1EDKA1>\n"]
  {
  }

  method WriteShipTo(buffer: StringBuffer, shipToNumber: string, customerName: string)
    modifies buffer
    ensures buffer.text == old(buffer.text) + RenderLines(ShipToLines(shipToNumber, customerName))
  {
    ShipToWritten(buffer.text, shipToNumber, customerName);
    buffer.Write("    <E1EDKA1>\n");
    buffer.Write("      <PARVW>WE</PARVW>\n");
    buffer.Write("      <PARTN>" + shipToNumber + "</PARTN>\n");
    buffer.Write("      <LIFNR>Vendor number at customer location</LIFNR>\n");
    if customerName != "" {
      buffer.Write("      <NAME1>" + customerName + "</NAME1>\n");
    }
    buffer.Write("    </E1EDKA1>\n");
  }

  method WriteE1EDK02(buffer: StringBuffer, po: string, date: string)
    modifies buffer
    ensures buffer.text == old(buffer.text) + RenderLines(E1EDK02Lines(po, date))
  {
    ghost var p := buffer.text;
    buffer.Write("    <E1EDK02>\n");
    buffer.Write("      <QUALF>001</QUALF>\n");
    buffer.Write("      <BELNR>" + po + "</BELNR>\n");
    buffer.Write("      <DATUM>" + date + "</DATUM>\n");
    buffer.Write("    </E1EDK02>\n");
    E1EDK02Rendered(po, date);
    Written5(p, E1EDK02Lines(po, date),
      "    <E1EDK02>\n",
      "      <QUALF>001</QUALF>\n",
      "      <BELNR>" + po + "</BELNR>\n",
      "      <DATUM>" + date + "</DATUM>\n",
      "    </E1EDK02>\n");
  }

  /** The texts of the E1EDK02 lines, as the writer writes them. */
  lemma E1EDK02Rendered(po: string, date: string)
    ensures Rendered(E1EDK02Lines(po, date)) == [
      "    <E1EDK02>\n",
      "      <QUALF>001</QUALF>\n",
      "      <BELNR>" + po + "</BELNR>\n",
      "      <DATUM>" + date + "</DATUM>\n",
      "    </E1EDK02>\n"]
  {
  }

  method WriteE1EDP01(buffer: StringBuffer, quantity: string)
    modifies buffer
    ensures buffer.text == old(buffer.text) + RenderLines(E1EDP01Lines(quantity))
  {
    ghost var p := buffer.text;
    buffer.Write("    <E1EDP01>\n");
    buffer.Write("      <POSEX>1</POSEX>\n");
    buffer.Write("      <MENGE>" + quantity + "</MENGE>\n");
    buffer.Write("      <MENEE>KG</MENEE>\n");
    buffer.Write("    </E1EDP01>\n");
    E1EDP01Rendered(quantity);
    Written5(p, E1EDP01Lines(quantity),
      "    <E1EDP01>\n",
      "      <POSEX>1</POSEX>\n",
      "      <MENGE>" + quantity + "</MENGE>\n",
      "      <MENEE>KG</MENEE>\n",
      "    </E1EDP01>\n");
  }

  /** The texts of the E1EDP01 lines, as the writer writes them. */
  lemma E1EDP01Rendered(quantity: string)
    ensures Rendered(E1EDP01Lines(quantity)) == [
      "    <E1EDP01>\n",
      "      <POSEX>1</POSEX>\n",
      "      <MENGE>" + quantity + "</MENGE>\n",
      "      <MENEE>KG</MENEE>\n",
      "    </E1EDP01>\n"]
  {
  }

  method WriteE1EDP02(buffer: StringBuffer, po: string, date: string)
    modifies buffer
    ensures buffer.text == old(buffer.text) + RenderLines(E1EDP02Lines(po, date))
  {
    ghost var p := buffer.text;
    buffer.Write("    <E1EDP02>\n");
    buffer.Write("      <QUALF>001</QUALF>\n");
    buffer.Write("      <BELNR>" + po + "</BELNR>\n");
    buffer.Write("      <ZEILE>1</ZEILE>\n");
    buffer.Write("      <DATUM>" + date + "</DATUM>\n");
    buffer.Write("    </E1EDP02>\n");
    E1EDP02Rendered(po, date);
    Written6(p, E1EDP02Lines(po, date),
      "    <E1EDP02>\n",
      "      <QUALF>001</QUALF>\n",
      "      <BELNR>" + po + "</BELNR>\n",
      "      <ZEILE>1</ZEILE>\n",
      "      <DATUM>" + date + "</DATUM>\n",
      "    </E1EDP02>\n");
  }

  /** The texts of the E1EDP02 lines, as the writer writes them. */
  lemma E1EDP02Rendered(po: string, date: string)
    ensures Rendered(E1EDP02Lines(po, date)) == [
      "    <E1EDP02>\n",
      "      <QUALF>001</QUALF>\n",
      "      <BELNR>" + po + "</BELNR>\n",
      "      <ZEILE>1</ZEILE>\n",
      "      <DATUM>" + date + "</DATUM>\n",
      "    </E1EDP02>\n"]
  {
  }

  method WriteE1EDP03(buffer: StringBuffer, date: string)
    modifies buffer
    ensures buffer.text == old(buffer.text) + RenderLines(E1EDP03Lines(date))
  {
    ghost var p := buffer.text;
    buffer.Write("    <E1EDP03>\n");
    buffer.Write("      <IDDAT>002</IDDAT>\n");
    buffer.Write("      <DATUM>" + date + "</DATUM>\n");
    buffer.Write("    </E1EDP03>\n");
    E1EDP03Rendered(date);
    Written4(p, E1EDP03Lines(date),
      "    <E1EDP03>\n",
      "      <IDDAT>002</IDDAT>\n",
      "      <DATUM>" + date + "</DATUM>\n",
      "    </E1EDP03>\n");
  }

  /** The texts of the E1EDP03 lines, as the writer writes them. */
  lemma E1EDP03Rendered(date: string)
    ensures Rendered(E1EDP03Lines(date)) == [
      "    <E1EDP03>\n",
      "      <IDDAT>002</IDDAT>\n",
      "      <DATUM>" + date + "</DATUM>\n",
      "    </E1EDP03>\n"]
  {
  }

  method WriteE1EDPA1(buffer: StringBuffer, customerNumber: string)
    modifies buffer
    ensures buffer.text == old(buffer.text) + RenderLines(E1EDPA1Lines(customerNumber))
  {
    ghost var p := buffer.text;
    buffer.Write("    <E1EDPA1>\n");
    buffer.Write("      <PARVW>EN</PARVW>\n");
    buffer.Write("      <PARTN>" + customerNumber + "</PARTN>\n");
    buffer.Write("    </E1EDPA1>\n");
    E1EDPA1Rendered(customerNumber);
    Written4(p, E1EDPA1Lines(customerNumber),
      "    <E1EDPA1>\n",
      "      <PARVW>EN</PARVW>\n",
      "      <PARTN>" + customerNumber + "</PARTN>\n",
      "    </E1EDPA1>\n");
  }

  /** The texts of the E1EDPA1 lines, as the writer writes them. */
  lemma E1EDPA1Rendered(customerNumber: string)
    ensures Rendered(E1EDPA1Lines(customerNumber)) == [
      "    <E1EDPA1>\n",
      "      <PARVW>EN</PARVW>\n",
      "      <PARTN>" + customerNumber + "</PARTN>\n",
      "    </E1EDPA1>\n"]
  {
  }

  method WriteE1EDP19(buffer: StringBuffer, partNumber: string)
    modifies buffer
    ensures buffer.text == old(buffer.text) + RenderLines(E1EDP19Lines(partNumber))
  {
    ghost var p := buffer.text;
    buffer.Write("    <E1EDP19>\n");
    buffer.Write("      <QUALF>001</QUALF>\n");
    buffer.Write("      <IDTNR>" + partNumber + "</IDTNR>\n");
    buffer.Write("    </E1EDP19>\n");
    E1EDP19Rendered(partNumber);
    Written4(p, E1EDP19Lines(partNumber),
      "    <E1EDP19>\n",
      "      <QUALF>001</QUALF>\n",
      "      <IDTNR>" + partNumber + "</IDTNR>\n",
      "    </E1EDP19>\n");
  }

  /** The texts of the E1EDP19 lines, as the writer writes them. */
  lemma E1EDP19Rendered(partNumber: string)
    ensures Rendered(E1EDP19Lines(partNumber)) == [
      "    <E1EDP19>\n",
      "      <QUALF>001</QUALF>\n",
      "      <IDTNR>" + partNumber + "</IDTNR>\n",
      "    </E1EDP19>\n"]
  {
  }

  /** Writes the header segments of one block (lines 56-95). */
  method WriteIdocHeaderSegments(buffer: StringBuffer, f: OrderFields, date: string)
    modifies buffer
    ensures buffer.text == old(buffer.text) + RenderLines(HeaderLines(f, date))
  {
    ghost var p := buffer.text;
    WriteE1EDK01(buffer);
    WriteOrderType(buffer);
    RenderAppend(p, E1EDK01Lines(), OrderTypeLines());
    WritePoType(buffer);
    RenderAppend(p, E1EDK01Lines() + OrderTypeLines(), PoTypeLines());
    WriteSoldTo(buffer, f.customerNumber);
    RenderAppend(p, E1EDK01Lines() + OrderTypeLines() + PoTypeLines(), SoldToLines(f.customerNumber));
    WriteShipTo(buffer, f.shipToNumber, f.customerName);
    RenderAppend(p, E1EDK01Lines() + OrderTypeLines() + PoTypeLines() + SoldToLines(f.customerNumber),
      ShipToLines(f.shipToNumber, f.customerName));
    WriteE1EDK02(buffer, f.poNumber, date);
    RenderAppend(p, E1EDK01Lines() + OrderTypeLines() + PoTypeLines() + SoldToLines(f.customerNumber)
      + ShipToLines(f.shipToNumber, f.customerName), E1EDK02Lines(f.poNumber, date));
  }

  /** Writes the item segments of one block (lines 97-128). */
  method WriteIdocItemSegments(buffer: StringBuffer, f: OrderFields, date: string)
    modifies buffer
    ensures buffer.text == old(buffer.text) + RenderLines(ItemLines(f, date))
  {
    ghost var p := buffer.text;
    WriteE1EDP01(buffer, f.orderQuantity);
    WriteE1EDP02(buffer, f.poNumber, date);
    RenderAppend(p, E1EDP01Lines(f.orderQuantity), E1EDP02Lines(f.poNumber, date));
    WriteE1EDP03(buffer, date);
    RenderAppend(p, E1EDP01Lines(f.orderQuantity) + E1EDP02Lines(f.poNumber, date), E1EDP03Lines(date));
    WriteE1EDPA1(buffer, f.customerNumber);
    RenderAppend(p, E1EDP01Lines(f.orderQuantity) + E1EDP02Lines(f.poNumber, date) + E1EDP03Lines(date),
      E1EDPA1Lines(f.customerNumber));
    WriteE1EDP19(buffer, f.customerPartNumber);
    RenderAppend(p, E1EDP01Lines(f.orderQuantity) + E1EDP02Lines(f.poNumber, date) + E1EDP03Lines(date)
      + E1EDPA1Lines(f.customerNumber), E1EDP19Lines(f.customerPartNumber));
  }

  /** Writes the `<IDOC>` element of one row (lines 51-131). */
  method WriteIdocBlock(buffer: StringBuffer, f: OrderFields, idx: nat, date: string)
    modifies buffer
    ensures buffer.text == old(buffer.text) + RenderLines(BlockLines(f, idx, date))
  {
    ghost var q := buffer.text;
    var docNumber := "DOC" + ZeroPad(1000 + idx, 4);
    buffer.Write("  <IDOC BEGIN=\"" + docNumber + "\">\n");
    RenderOne(q, IdocBegin(idx));
    WriteIdocHeaderSegments(buffer, f, date);
    RenderAppend(q, [IdocBegin(idx)], HeaderLines(f, date));
    WriteIdocItemSegments(buffer, f, date);
    RenderAppend(q, [IdocBegin(idx)] + HeaderLines(f, date), ItemLines(f, date));
    buffer.Write("  </IDOC>\n");
    RenderOne(q + RenderLines([IdocBegin(idx)] + HeaderLines(f, date) + ItemLines(f, date)), IdocEnd);
    RenderAppend(q, [IdocBegin(idx)] + HeaderLines(f, date) + ItemLines(f, date), [IdocEnd]);
  }

  /** One pass of the loop at lines 28-131: the fields and delivery date of
      `rows[idx]`, then its block. */
  method WriteIdocRecord(buffer: StringBuffer, ghost p: string, rows: seq<Row>, idx: nat, today: Date)
    requires idx < |rows|
    requires buffer.text == p + RenderLines(BlocksUpTo(rows, idx, today))
    modifies buffer
    ensures buffer.text == p + RenderLines(BlocksUpTo(rows, idx + 1, today))
  {
    var row := rows[idx];
    var f := FieldsOf(row, idx);
    var formattedDeliveryDate := FormatDeliveryDate(f.deliveryDate, today);
    WriteIdocBlock(buffer, f, idx, formattedDeliveryDate);
    RenderAppend(p, BlocksUpTo(rows, idx, today), RowBlock(rows, idx, today));
  }

  /** The loop over the rows (lines 28-131): one block per row, in order. */
  method WriteIdocRecords(buffer: StringBuffer, rows: seq<Row>, today: Date)
    modifies buffer
    ensures buffer.text == old(buffer.text) + RenderLines(BlocksUpTo(rows, |rows|, today))
  {
    ghost var start := buffer.text;
    var idx := 0;
    assert Rendered([]) == [];
    while idx < |rows|
      invariant 0 <= idx <= |rows|
      invariant buffer.text == start + RenderLines(BlocksUpTo(rows, idx, today))
    {
      WriteIdocRecord(buffer, start, rows, idx, today);
      idx := idx + 1;
    }
  }

  /** `generate_idoc_xml_data`: `None` for an empty table, otherwise the
      declaration, `<ORDERS05>`, one block per row and `</ORDERS05>`. */
  method GenerateIdocXmlData(rows: seq<Row>, today: Date) returns (r: Option<string>)
    ensures r.None? <==> EmptyTable(rows)
    ensures r.Some? ==> r.value == IdocXml(rows, today)
  {
    if EmptyTable(rows) {
      return None;
    }
    var buffer := new StringBuffer();
    buffer.Write(XmlDeclaration);
    buffer.Write("<ORDERS05>\n");
    assert buffer.text == IdocHeader by {
      assert "" + XmlDeclaration == XmlDeclaration;
    }
    WriteIdocRecords(buffer, rows, today);
    buffer.Write(IdocFooter);
    var xmlData := buffer.GetValue();
    r := Some(xmlData);
  }
}
