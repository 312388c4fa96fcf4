/** The grouping script `update_customer_master.py`: the rows of the
    customer master sheet are normalised and grouped into one entry per
    customer number, holding the customer's names and a ship-to number to
    address map. */
module CustomerMaster {
  import opened Common

  /** A cell of the sheet: empty (NaN) or holding a value, given by its text. */
  datatype Cell = Missing | Text(s: string)

  /** A row of the sheet as read. */
  datatype SheetRow = SheetRow(customerNumber: Cell, customerName: Cell, shipToNumber: Cell, shipToAddress: Cell)

  /** A row once the customer number is normalised and the name filled. */
  datatype Row = Row(customerNumber: string, customerName: Cell, shipToNumber: Cell, shipToAddress: Cell)

  /** A customer while the rows are grouped: `{"customer_names": set(), "ship_to": {}}`. */
  datatype Entry = Entry(names: set<Cell>, shipTo: map<string, string>)

  /** A customer in the final dictionary, whose names are a list. */
  datatype Customer = Customer(names: seq<Cell>, shipTo: map<string, string>)

  // ---------------------------------------------------------------------
  // Normalising the customer number (line 9)
  // ---------------------------------------------------------------------

  /** `astype(str)`: an empty cell becomes the text `nan`. */
  function CellText(c: Cell): string
  {
    if c.Missing? then "nan" else c.s
  }

  predicate IsLower(ch: char) { 'a' <= ch <= 'z' }

  function UpperChar(ch: char): (u: char)
    ensures !IsLower(u)
  {
    if IsLower(ch) then (ch as int - 32) as char else ch
  }

  /** `str.upper()` on the ASCII letters. */
  function Upper(s: string): (u: string)
    ensures |u| == |s|
    ensures forall i :: 0 <= i < |s| ==> u[i] == UpperChar(s[i])
    decreases |s|
  {
    if s == [] then [] else [UpperChar(s[0])] + Upper(s[1..])
  }

  /** `.astype(str).str.strip().str.upper()`. */
  function NormalizeNumber(c: Cell): string
  {
    Upper(Strip(CellText(c), PyWhitespace))
  }

  /** A normalised customer number has no surrounding whitespace and no
      lower-case letter, and normalising it again changes nothing. */
  lemma NormalizeNumberSpec(c: Cell)
    ensures var k := NormalizeNumber(c);
      && (k != [] ==> k[0] !in PyWhitespace && k[|k| - 1] !in PyWhitespace)
      && (forall i :: 0 <= i < |k| ==> !IsLower(k[i]))
      && NormalizeNumber(Text(k)) == k
  {
    var t := Strip(CellText(c), PyWhitespace);
    var k := NormalizeNumber(c);
    assert k != [] ==> k[0] !in PyWhitespace && k[|k| - 1] !in PyWhitespace by {
      StripProperties(CellText(c), PyWhitespace);
      if k != [] {
        UpperCharSpace(t[0]);
        UpperCharSpace(t[|t| - 1]);
      }
    }
    StripNothing(k, PyWhitespace);
    assert Upper(k) == k;
  }

  /** Upper-casing turns no character into whitespace. */
  lemma UpperCharSpace(ch: char)
    requires ch !in PyWhitespace
    ensures UpperChar(ch) !in PyWhitespace
  {
  }

  /** An empty customer number cell becomes `NAN`. */
  lemma MissingNumber()
    ensures NormalizeNumber(Missing) == "NAN"
  {
    StripNothing("nan", PyWhitespace);
    assert Upper("nan") == "NAN";
  }

  // ---------------------------------------------------------------------
  // Forward-filling the customer name (line 12)
  // ---------------------------------------------------------------------

  /** The name row `i` gets from `fillna(method="ffill")`: its own, or the
      nearest earlier name; empty when there is none. */
  function FilledName(names: seq<Cell>, i: nat): Cell
    requires i < |names|
  {
    if names[i].Text? || i == 0 then names[i] else FilledName(names, i - 1)
  }

  function ForwardFill(names: seq<Cell>): seq<Cell>
  {
    seq(|names|, i requires 0 <= i < |names| => FilledName(names, i))
  }

  /** A present name is kept; an empty one takes the nearest earlier present
      name, and stays empty only when no earlier row has a name. */
  lemma {:induction false} FilledNameSpec(names: seq<Cell>, i: nat)
    requires i < |names|
    ensures names[i].Text? ==> FilledName(names, i) == names[i]
    ensures names[i].Missing? && FilledName(names, i).Text? ==>
      exists j :: 0 <= j < i && names[j] == FilledName(names, i) && forall m :: j < m <= i ==> names[m].Missing?
    ensures FilledName(names, i).Missing? ==> forall j :: 0 <= j <= i ==> names[j].Missing?
    decreases i
  {
    if names[i].Missing? && i > 0 {
      FilledNameSpec(names, i - 1);
      if FilledName(names, i).Text? && names[i - 1].Missing? {
        var j :| 0 <= j < i - 1 && names[j] == FilledName(names, i - 1) && forall m :: j < m <= i - 1 ==> names[m].Missing?;
        assert forall m :: j < m <= i ==> names[m].Missing?;
      }
    }
  }

  /** The `Customer Name` column. */
  function NameColumn(sheet: seq<SheetRow>): (names: seq<Cell>)
    ensures |names| == |sheet|
  {
    seq(|sheet|, i requires 0 <= i < |sheet| => sheet[i].customerName)
  }

  /** The rows the grouping loop reads. */
  function Prepared(sheet: seq<SheetRow>): (rows: seq<Row>)
    ensures |rows| == |sheet|
  {
    var names := ForwardFill(NameColumn(sheet));
    seq(|sheet|, i requires 0 <= i < |sheet| =>
      Row(NormalizeNumber(sheet[i].customerNumber), names[i], sheet[i].shipToNumber, sheet[i].shipToAddress))
  }

  /** Row `i` read by the loop: the normalised number and the filled name of
      sheet row `i`, with its ship-to cells as they are. */
  lemma PreparedAt(sheet: seq<SheetRow>, i: nat)
    requires i < |sheet|
    ensures Prepared(sheet)[i] ==
      Row(NormalizeNumber(sheet[i].customerNumber), FilledName(NameColumn(sheet), i), sheet[i].shipToNumber, sheet[i].shipToAddress)
  {
  }

  // ---------------------------------------------------------------------
  // Grouping (lines 17-32)
  // ---------------------------------------------------------------------

  /** `pd.notna(ship_to_num) and pd.notna(ship_to_addr)`. */
  predicate HasShipTo(r: Row)
  {
    r.shipToNumber.Text? && r.shipToAddress.Text?
  }

  /** One pass of the loop body over `customer_dict`. */
  function Step(d: map<string, Entry>, r: Row): map<string, Entry>
  {
    var e := if r.customerNumber in d then d[r.customerNumber] else Entry({}, map[]);
    var named := e.(names := e.names + {r.customerName});
    d[r.customerNumber := if HasShipTo(r) then named.(shipTo := named.shipTo[r.shipToNumber.s := r.shipToAddress.s]) else named]
  }

  /** `customer_dict` after the loop over `rows`. */
  function Grouped(rows: seq<Row>): map<string, Entry>
    decreases |rows|
  {
    if rows == [] then map[] else Step(Grouped(rows[..|rows| - 1]), rows[|rows| - 1])
  }

  /** Row `i` records the ship-to number `n` for customer `k`. */
  predicate RecordsShipTo(rows: seq<Row>, i: int, k: string, n: string)
    requires 0 <= i < |rows|
  {
    rows[i].customerNumber == k && HasShipTo(rows[i]) && rows[i].shipToNumber.s == n
  }

  /** One entry per distinct customer number of the rows, and no other. */
  lemma {:induction false} GroupedKeys(rows: seq<Row>)
    ensures forall k :: k in Grouped(rows) <==> exists i :: 0 <= i < |rows| && rows[i].customerNumber == k
    decreases |rows|
  {
    if rows != [] {
      var init := rows[..|rows| - 1];
      GroupedKeys(init);
      assert forall i :: 0 <= i < |init| ==> init[i] == rows[i];
      forall k | k in Grouped(rows)
        ensures exists i :: 0 <= i < |rows| && rows[i].customerNumber == k
      {
        if k != rows[|rows| - 1].customerNumber {
          assert k in Grouped(init);
          var i :| 0 <= i < |init| && init[i].customerNumber == k;
          assert rows[i].customerNumber == k;
        }
      }
      forall k | exists i :: 0 <= i < |rows| && rows[i].customerNumber == k
        ensures k in Grouped(rows)
      {
        var i :| 0 <= i < |rows| && rows[i].customerNumber == k;
        if i < |init| {
          assert init[i].customerNumber == k;
        }
      }
    }
  }

  /** A customer's names are exactly the names of its rows. */
  lemma {:induction false} GroupedNames(rows: seq<Row>, k: string)
    requires k in Grouped(rows)
    ensures Grouped(rows)[k].names == set i | 0 <= i < |rows| && rows[i].customerNumber == k :: rows[i].customerName
    decreases |rows|
  {
    var n := |rows| - 1;
    var init := rows[..n];
    var here := set i | 0 <= i < |rows| && rows[i].customerNumber == k :: rows[i].customerName;
    var before := set i | 0 <= i < |init| && init[i].customerNumber == k :: init[i].customerName;
    assert forall i :: 0 <= i < |init| ==> init[i] == rows[i];
    if k in Grouped(init) {
      GroupedNames(init, k);
    } else {
      GroupedKeys(init);
      assert before == {};
    }
    if rows[n].customerNumber == k {
      assert here == before + {rows[n].customerName};
    } else {
      assert here == before;
    }
  }

  /** A customer's ship-to map holds a number exactly when some row of the
      customer records it with both a number and an address, and then the
      address of the last such row. */
  lemma {:induction false} GroupedShipTo(rows: seq<Row>, k: string, n: string)
    requires k in Grouped(rows)
    ensures n in Grouped(rows)[k].shipTo <==> exists i :: 0 <= i < |rows| && RecordsShipTo(rows, i, k, n)
    ensures n in Grouped(rows)[k].shipTo ==>
      exists i :: 0 <= i < |rows| && RecordsShipTo(rows, i, k, n) &&
        Grouped(rows)[k].shipTo[n] == rows[i].shipToAddress.s &&
        forall j :: i < j < |rows| ==> !RecordsShipTo(rows, j, k, n)
    decreases |rows|
  {
    var last := |rows| - 1;
    var init := rows[..last];
    assert forall i :: 0 <= i < |init| ==> init[i] == rows[i];
    assert forall i :: 0 <= i < |init| ==> (RecordsShipTo(init, i, k, n) <==> RecordsShipTo(rows, i, k, n));
    if RecordsShipTo(rows, last, k, n) {
      assert Grouped(rows)[k].shipTo[n] == rows[last].shipToAddress.s;
    } else if k in Grouped(init) {
      GroupedShipTo(init, k, n);
      assert (n in Grouped(rows)[k].shipTo) == (n in Grouped(init)[k].shipTo);
      if n in Grouped(init)[k].shipTo {
        assert Grouped(rows)[k].shipTo[n] == Grouped(init)[k].shipTo[n];
        var i :| 0 <= i < |init| && RecordsShipTo(init, i, k, n) &&
          Grouped(init)[k].shipTo[n] == init[i].shipToAddress.s &&
          forall j :: i < j < |init| ==> !RecordsShipTo(init, j, k, n);
        assert RecordsShipTo(rows, i, k, n);
      }
    } else {
      GroupedKeys(init);
      assert n !in Grouped(rows)[k].shipTo;
      forall i | 0 <= i < |rows|
        ensures !RecordsShipTo(rows, i, k, n)
      {
        if i < last {
          assert init[i].customerNumber != k;
        }
      }
    }
  }

  /** The loop of lines 17-32: an entry is created at the first row of a
      customer, every row adds its name, and a row with both a ship-to number
      and address records them. */
  method GroupRows(rows: seq<Row>) returns (customers: map<string, Entry>)
    ensures customers == Grouped(rows)
  {
    customers := map[];
    var i := 0;
    while i < |rows|
      invariant 0 <= i <= |rows|
      invariant customers == Grouped(rows[..i])
    {
      var row := rows[i];
      var custNum := row.customerNumber;
      var custName := row.customerName;
      var shipToNum := row.shipToNumber;
      var shipToAddr := row.shipToAddress;
      if custNum !in customers {
        customers := customers[custNum := Entry({}, map[])];
      }
      customers := customers[custNum := customers[custNum].(names := customers[custNum].names + {custName})];
      if shipToNum.Text? && shipToAddr.Text? {
        customers := customers[custNum := customers[custNum].(shipTo := customers[custNum].shipTo[shipToNum.s := shipToAddr.s])];
      }
      assert rows[..i + 1][..i] == rows[..i];
      i := i + 1;
    }
    assert rows[..i] == rows;
  }

  // ---------------------------------------------------------------------
  // Names as lists (lines 35-36)
  // ---------------------------------------------------------------------

  predicate NoDuplicates(xs: seq<Cell>)
  {
    forall i, j :: 0 <= i < j < |xs| ==> xs[i] != xs[j]
  }

  /** `list(s)`: the elements of the set, each once, in an order the set's
      iteration chooses. */
  method SetToList(s: set<Cell>) returns (xs: seq<Cell>)
    ensures (set x | x in xs) == s
    ensures NoDuplicates(xs)
  {
    xs := [];
    var rest := s;
    while rest != {}
      invariant rest <= s
      invariant (set x | x in xs) == s - rest
      invariant NoDuplicates(xs)
      decreases |rest|
    {
      var x :| x in rest;
      assert x !in xs;
      assert (set y | y in xs + [x]) == (set y | y in xs) + {x};
      xs := xs + [x];
      rest := rest - {x};
    }
  }

  /** The customer each entry becomes once its names are a list. */
  predicate Converted(e: Entry, c: Customer)
  {
    (set x | x in c.names) == e.names && NoDuplicates(c.names) && c.shipTo == e.shipTo
  }

  /** The loop of lines 35-36, over every customer. */
  method NamesToLists(grouped: map<string, Entry>) returns (result: map<string, Customer>)
    ensures result.Keys == grouped.Keys
    ensures forall k :: k in grouped ==> Converted(grouped[k], result[k])
  {
    result := map[];
    var rest := grouped.Keys;
    while rest != {}
      invariant rest <= grouped.Keys
      invariant result.Keys == grouped.Keys - rest
      invariant forall k :: k in result ==> Converted(grouped[k], result[k])
      decreases |rest|
    {
      var custNum :| custNum in rest;
      var names := SetToList(grouped[custNum].names);
      result := result[custNum := Customer(names, grouped[custNum].shipTo)];
      rest := rest - {custNum};
    }
  }

  /** Lines 9-36: normalise, fill, group, and turn the name sets into lists. */
  method BuildCustomerMaster(sheet: seq<SheetRow>) returns (result: map<string, Customer>)
    ensures result.Keys == Grouped(Prepared(sheet)).Keys
    ensures forall k :: k in result ==> Converted(Grouped(Prepared(sheet))[k], result[k])
  {
    var rows := Prepared(sheet);
    var grouped := GroupRows(rows);
    result := NamesToLists(grouped);
  }

  /** What the customer master holds for a sheet: a key per normalised
      customer number; each customer's names are the filled names of its
      rows. */
  lemma CustomerMasterSpec(sheet: seq<SheetRow>, k: string)
    ensures k in Grouped(Prepared(sheet)) <==>
      exists i :: 0 <= i < |sheet| && NormalizeNumber(sheet[i].customerNumber) == k
    ensures k in Grouped(Prepared(sheet)) ==>
      Grouped(Prepared(sheet))[k].names ==
        set i | 0 <= i < |sheet| && NormalizeNumber(sheet[i].customerNumber) == k :: FilledName(NameColumn(sheet), i)
  {
    var rows := Prepared(sheet);
    forall i | 0 <= i < |sheet|
      ensures rows[i].customerNumber == NormalizeNumber(sheet[i].customerNumber)
      ensures rows[i].customerName == FilledName(NameColumn(sheet), i)
    {
      PreparedAt(sheet, i);
    }
    GroupedKeys(rows);
    if k in Grouped(rows) {
      GroupedNames(rows, k);
    }
  }
}
