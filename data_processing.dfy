/** `data_processing.py`: the reply of the extraction model is cleaned,
    decoded and has its delivery addresses put on one line
    (`process_api_response`); the decoded purchase orders of all files are
    then flattened into the rows of one table whose first column is the file
    name (`convert_to_dataframe`). */
module DataProcessing {
  import opened Common
  import opened JsonModel

  const DeliveryAddress: string := "Delivery Address"
  const FilenameKey: string := "filename"

  /** The dict `{"filename": ..., "data": ...}` that `process_api_response`
      returns for one file. */
  datatype Extraction = Extraction(filename: string, data: Json)

  // ---------------------------------------------------------------------
  // Delivery addresses on one line
  // ---------------------------------------------------------------------

  /** `s.replace(a, b)` for single characters. */
  function ReplaceChar(s: string, a: char, b: char): (r: string)
    ensures |r| == |s|
    ensures forall i :: 0 <= i < |s| ==> r[i] == if s[i] == a then b else s[i]
    decreases |s|
  {
    if s == [] then [] else [if s[0] == a then b else s[0]] + ReplaceChar(s[1..], a, b)
  }

  /** `s.replace('\n', ' ').replace('\r', ' ')`. */
  function CleanAddress(s: string): string
  {
    ReplaceChar(ReplaceChar(s, '\n', ' '), '\r', ' ')
  }

  /** A cleaned address has the same length, has every line break turned into
      a space and every other character kept, contains no line break, and
      cleaning it again changes nothing. */
  lemma CleanAddressProperties(s: string)
    ensures |CleanAddress(s)| == |s|
    ensures forall i :: 0 <= i < |s| ==>
      CleanAddress(s)[i] == if s[i] == '\n' || s[i] == '\r' then ' ' else s[i]
    ensures '\n' !in CleanAddress(s) && '\r' !in CleanAddress(s)
    ensures CleanAddress(CleanAddress(s)) == CleanAddress(s)
  {
    var r := CleanAddress(s);
    assert forall i :: 0 <= i < |r| ==> r[i] != '\n' && r[i] != '\r';
    assert CleanAddress(r) == r;
  }

  /** Cleaning leaves an address alone exactly when it has no line break. */
  lemma CleanAddressFixed(s: string)
    ensures CleanAddress(s) == s <==> '\n' !in s && '\r' !in s
  {
    CleanAddressProperties(s);
    if CleanAddress(s) == s {
      assert '\n' !in CleanAddress(s) && '\r' !in CleanAddress(s);
    } else {
      var i :| 0 <= i < |s| && CleanAddress(s)[i] != s[i];
      assert s[i] in s;
    }
  }

  /** `if 'Delivery Address' in d: d['Delivery Address'] = d['Delivery Address'].replace(...)`
      on a dict: an address that is not a string has no `replace`. */
  function FixAddress(o: Object): Result<Object>
  {
    match Lookup(o, DeliveryAddress)
    case None => Ok(o)
    case Some(JString(s)) => Ok(Put(o, DeliveryAddress, JString(CleanAddress(s))))
    case Some(_) => Err(AttributeError)
  }

  /** An address whose value, if present, is a string without line breaks. */
  predicate AddressClean(o: Object)
  {
    Lookup(o, DeliveryAddress).Some? ==>
      Lookup(o, DeliveryAddress).value.JString? &&
      '\n' !in Lookup(o, DeliveryAddress).value.s && '\r' !in Lookup(o, DeliveryAddress).value.s
  }

  /** Fixing the address fails exactly when the address is present and not a
      string; otherwise it keeps the keys, their order and every other value,
      cleans the address, and a second fix changes nothing. */
  lemma FixAddressSpec(o: Object)
    ensures FixAddress(o).Err? <==>
      Lookup(o, DeliveryAddress).Some? && !Lookup(o, DeliveryAddress).value.JString?
    ensures FixAddress(o).Err? ==> FixAddress(o).error == AttributeError
    ensures FixAddress(o).Ok? ==>
      var o' := FixAddress(o).value;
      && Keys(o') == Keys(o)
      && (forall k :: k != DeliveryAddress ==> Lookup(o', k) == Lookup(o, k))
      && (Lookup(o, DeliveryAddress).None? ==> Lookup(o', DeliveryAddress).None?)
      && (Lookup(o, DeliveryAddress).Some? ==>
            Lookup(o', DeliveryAddress) == Some(JString(CleanAddress(Lookup(o, DeliveryAddress).value.s))))
      && AddressClean(o')
      && FixAddress(o') == Ok(o')
      && (DistinctKeys(o) ==> DistinctKeys(o'))
  {
    match Lookup(o, DeliveryAddress)
    case None =>
    case Some(JString(s)) =>
      var o' := Put(o, DeliveryAddress, JString(CleanAddress(s)));
      PutLookup(o, DeliveryAddress, JString(CleanAddress(s)));
      CleanAddressProperties(s);
      if DistinctKeys(o) {
        PutDistinct(o, DeliveryAddress, JString(CleanAddress(s)));
      }
      var i := IndexOf(o', DeliveryAddress);
      assert i == IndexOf(o, DeliveryAddress);
      assert o'[i := (DeliveryAddress, JString(CleanAddress(CleanAddress(s))))] == o';
    case Some(_) =>
  }

  // ---------------------------------------------------------------------
  // convert_to_dataframe
  // ---------------------------------------------------------------------

  /** One line item becomes a record: `line_item['filename'] = filename`
      (a value that is not a dict refuses item assignment), then the address
      fix. */
  function TagRecord(lineItem: Json, filename: string): Result<Object>
  {
    if lineItem.JObject? then FixAddress(Put(lineItem.fields, FilenameKey, JString(filename)))
    else Err(TypeError)
  }

  /** The records of a list of line items, in order; the first failure ends
      the conversion. */
  function LineRecords(items: seq<Json>, filename: string): Result<seq<Object>>
    decreases |items|
  {
    if items == [] then Ok([])
    else
      match LineRecords(items[..|items| - 1], filename)
      case Err(e) => Err(e)
      case Ok(rs) =>
        match TagRecord(items[|items| - 1], filename)
        case Err(e) => Err(e)
        case Ok(r) => Ok(rs + [r])
  }

  /** A list is a purchase order with several lines; anything else is a
      single purchase order. */
  function ItemRecords(x: Extraction): Result<seq<Object>>
  {
    if x.data.JArray? then LineRecords(x.data.items, x.filename)
    else
      match TagRecord(x.data, x.filename)
      case Err(e) => Err(e)
      case Ok(r) => Ok([r])
  }

  /** `all_records` after the loop over every extraction. */
  function AllRecords(xs: seq<Extraction>): Result<seq<Object>>
    decreases |xs|
  {
    if xs == [] then Ok([])
    else
      match AllRecords(xs[..|xs| - 1])
      case Err(e) => Err(e)
      case Ok(rs) =>
        match ItemRecords(xs[|xs| - 1])
        case Err(e) => Err(e)
        case Ok(more) => Ok(rs + more)
  }

  /** How many records one extraction yields, and the line item behind each. */
  function RecordCount(x: Extraction): nat
  {
    if x.data.JArray? then |x.data.items| else 1
  }

  function ItemAt(x: Extraction, k: nat): Json
    requires k < RecordCount(x)
  {
    if x.data.JArray? then x.data.items[k] else x.data
  }

  /** For each record, the extraction and the line within it that it comes
      from. */
  function Sources(xs: seq<Extraction>): seq<(nat, nat)>
    decreases |xs|
  {
    if xs == [] then []
    else Sources(xs[..|xs| - 1]) + seq(RecordCount(xs[|xs| - 1]), k => (|xs| - 1, k))
  }

  predicate Before(a: (nat, nat), b: (nat, nat))
  {
    a.0 < b.0 || (a.0 == b.0 && a.1 < b.1)
  }

  /** Every line of every extraction is a source exactly once, in the order
      of the extractions and then of their lines. */
  lemma {:induction false} SourcesEnumerate(xs: seq<Extraction>)
    ensures forall j :: 0 <= j < |Sources(xs)| ==>
      Sources(xs)[j].0 < |xs| && Sources(xs)[j].1 < RecordCount(xs[Sources(xs)[j].0])
    ensures forall j1, j2 :: 0 <= j1 < j2 < |Sources(xs)| ==> Before(Sources(xs)[j1], Sources(xs)[j2])
    ensures forall i, k :: 0 <= i < |xs| && 0 <= k < RecordCount(xs[i]) ==> (i, k) in Sources(xs)
    decreases |xs|
  {
    if xs != [] {
      var init := xs[..|xs| - 1];
      var n := |xs| - 1;
      SourcesEnumerate(init);
      var s0 := Sources(init);
      var tail := seq(RecordCount(xs[n]), k => (n, k));
      assert Sources(xs) == s0 + tail;
      assert forall i :: 0 <= i < n ==> xs[i] == init[i];
      forall i, k | 0 <= i < |xs| && 0 <= k < RecordCount(xs[i])
        ensures (i, k) in Sources(xs)
      {
        if i < n {
          assert (i, k) in s0;
        } else {
          assert tail[k] == (i, k);
        }
      }
    }
  }

  /** The records of a list of line items: one per line, each the record of
      its line; the conversion fails exactly when some line fails. */
  lemma {:induction false} LineRecordsSpec(items: seq<Json>, filename: string)
    ensures LineRecords(items, filename).Ok? <==>
      forall k :: 0 <= k < |items| ==> TagRecord(items[k], filename).Ok?
    ensures LineRecords(items, filename).Ok? ==>
      var rs := LineRecords(items, filename).value;
      |rs| == |items| && forall k :: 0 <= k < |items| ==> TagRecord(items[k], filename) == Ok(rs[k])
    decreases |items|
  {
    if items != [] {
      var init := items[..|items| - 1];
      LineRecordsSpec(init, filename);
      assert forall k :: 0 <= k < |init| ==> init[k] == items[k];
    }
  }

  /** The records of one extraction, line by line. */
  lemma ItemRecordsSpec(x: Extraction)
    ensures ItemRecords(x).Ok? <==>
      forall k :: 0 <= k < RecordCount(x) ==> TagRecord(ItemAt(x, k), x.filename).Ok?
    ensures ItemRecords(x).Ok? ==>
      var rs := ItemRecords(x).value;
      |rs| == RecordCount(x) &&
      forall k :: 0 <= k < RecordCount(x) ==> TagRecord(ItemAt(x, k), x.filename) == Ok(rs[k])
  {
    if x.data.JArray? {
      LineRecordsSpec(x.data.items, x.filename);
      assert forall k :: 0 <= k < RecordCount(x) ==> ItemAt(x, k) == x.data.items[k];
    } else {
      assert TagRecord(ItemAt(x, 0), x.filename) == TagRecord(x.data, x.filename);
    }
  }

  /** Every line of every extraction can be made a record. */
  predicate AllLinesOk(xs: seq<Extraction>)
  {
    forall i, k :: 0 <= i < |xs| && 0 <= k < RecordCount(xs[i]) ==> TagRecord(ItemAt(xs[i], k), xs[i].filename).Ok?
  }

  /** `r` is the record made from the line `src` of the extractions. */
  predicate RecordOf(xs: seq<Extraction>, src: (nat, nat), r: Object)
  {
    src.0 < |xs| && src.1 < RecordCount(xs[src.0]) &&
    TagRecord(ItemAt(xs[src.0], src.1), xs[src.0].filename) == Ok(r)
  }

  /** The conversion succeeds exactly when every line of every extraction can
      be made a record. */
  lemma {:induction false} AllRecordsOk(xs: seq<Extraction>)
    ensures AllRecords(xs).Ok? <==> AllLinesOk(xs)
    decreases |xs|
  {
    if xs != [] {
      var n := |xs| - 1;
      var init := xs[..n];
      AllRecordsOk(init);
      ItemRecordsSpec(xs[n]);
      assert forall i :: 0 <= i < n ==> xs[i] == init[i];
      if !AllRecords(xs).Ok? {
        if AllRecords(init).Ok? {
          var k :| 0 <= k < RecordCount(xs[n]) && !TagRecord(ItemAt(xs[n], k), xs[n].filename).Ok?;
        } else {
          var i, k :| 0 <= i < n && 0 <= k < RecordCount(init[i]) && !TagRecord(ItemAt(init[i], k), init[i].filename).Ok?;
          assert !TagRecord(ItemAt(xs[i], k), xs[i].filename).Ok?;
        }
      }
    }
  }

  /** When the conversion succeeds, record `j` is the record of line
      `Sources(xs)[j]`: one record per line, in order. */
  lemma {:induction false} AllRecordsSources(xs: seq<Extraction>)
    requires AllRecords(xs).Ok?
    ensures |AllRecords(xs).value| == |Sources(xs)|
    ensures forall j :: 0 <= j < |Sources(xs)| ==> RecordOf(xs, Sources(xs)[j], AllRecords(xs).value[j])
    decreases |xs|
  {
    if xs == [] {
      return;
    }
    var n := |xs| - 1;
    var init := xs[..n];
    AllRecordsSources(init);
    ItemRecordsSpec(xs[n]);
    var s0 := Sources(init);
    assert Sources(xs) == s0 + seq(RecordCount(xs[n]), k => (n, k));
    var rs := AllRecords(xs).value;
    var r0 := AllRecords(init).value;
    var more := ItemRecords(xs[n]).value;
    assert rs == r0 + more;
    forall j | 0 <= j < |rs|
      ensures RecordOf(xs, Sources(xs)[j], rs[j])
    {
      if j < |r0| {
        assert Sources(xs)[j] == s0[j];
        assert RecordOf(init, s0[j], r0[j]);
        assert xs[s0[j].0] == init[s0[j].0];
      } else {
        assert Sources(xs)[j] == (n, j - |r0|);
      }
    }
  }

  /** What one record holds: the file name under `filename`, the cleaned
      address if the line item had a string address, no address if it had
      none, and every other field of the line item unchanged. A line item
      that is not a dict raises `TypeError`; an address that is not a string
      raises `AttributeError`. */
  lemma TagRecordSpec(lineItem: Json, filename: string)
    ensures TagRecord(lineItem, filename).Err? <==>
      !lineItem.JObject? ||
      (Lookup(lineItem.fields, DeliveryAddress).Some? && !Lookup(lineItem.fields, DeliveryAddress).value.JString?)
    ensures TagRecord(lineItem, filename).Err? ==>
      TagRecord(lineItem, filename).error == if lineItem.JObject? then AttributeError else TypeError
    ensures TagRecord(lineItem, filename).Ok? ==>
      var r := TagRecord(lineItem, filename).value;
      var fields := lineItem.fields;
      && Lookup(r, FilenameKey) == Some(JString(filename))
      && (forall k :: k != FilenameKey && k != DeliveryAddress ==> Lookup(r, k) == Lookup(fields, k))
      && (Lookup(fields, DeliveryAddress).None? ==> Lookup(r, DeliveryAddress).None?)
      && (Lookup(fields, DeliveryAddress).Some? ==>
            Lookup(r, DeliveryAddress) == Some(JString(CleanAddress(Lookup(fields, DeliveryAddress).value.s))))
      && AddressClean(r)
      && Keys(r) == (if HasKey(fields, FilenameKey) then Keys(fields) else Keys(fields) + [FilenameKey])
      && (DistinctKeys(fields) ==> DistinctKeys(r))
  {
    if lineItem.JObject? {
      var tagged := Put(lineItem.fields, FilenameKey, JString(filename));
      PutLookup(lineItem.fields, FilenameKey, JString(filename));
      if DistinctKeys(lineItem.fields) {
        PutDistinct(lineItem.fields, FilenameKey, JString(filename));
      }
      FixAddressSpec(tagged);
    }
  }

  /** If the records up to line `m` already fail, the whole list fails the
      same way: later lines are never looked at. */
  lemma {:induction false} LineRecordsStop(items: seq<Json>, filename: string, m: nat)
    requires m <= |items| && LineRecords(items[..m], filename).Err?
    ensures LineRecords(items, filename) == LineRecords(items[..m], filename)
    decreases |items|
  {
    if m < |items| {
      var init := items[..|items| - 1];
      assert init[..m] == items[..m];
      LineRecordsStop(init, filename, m);
    } else {
      assert items[..m] == items;
    }
  }

  lemma {:induction false} AllRecordsStop(xs: seq<Extraction>, m: nat)
    requires m <= |xs| && AllRecords(xs[..m]).Err?
    ensures AllRecords(xs) == AllRecords(xs[..m])
    decreases |xs|
  {
    if m < |xs| {
      var init := xs[..|xs| - 1];
      assert init[..m] == xs[..m];
      AllRecordsStop(init, m);
    } else {
      assert xs[..m] == xs;
    }
  }

  /** A table: its column labels in order and its rows; a key missing from a
      row is an empty (NaN) cell. */
  datatype Frame = Frame(columns: seq<string>, records: seq<Object>)

  predicate Distinct(cs: seq<string>)
  {
    forall i, j :: 0 <= i < j < |cs| ==> cs[i] != cs[j]
  }

  /** `ks` added at the end of `cols`, each key the first time it is seen. */
  function AddColumns(cols: seq<string>, ks: seq<string>): seq<string>
    decreases |ks|
  {
    if ks == [] then cols
    else AddColumns(if ks[0] in cols then cols else cols + [ks[0]], ks[1..])
  }

  /** The columns `pd.DataFrame` gives a list of dicts: every key, in the
      order of first appearance. */
  function Columns(recs: seq<Object>): seq<string>
    decreases |recs|
  {
    if recs == [] then [] else AddColumns(Columns(recs[..|recs| - 1]), Keys(recs[|recs| - 1]))
  }

  /** `[col for col in cols if col != c]`. */
  function Without(cols: seq<string>, c: string): seq<string>
    decreases |cols|
  {
    if cols == [] then [] else (if cols[0] == c then [] else [cols[0]]) + Without(cols[1..], c)
  }

  /** The table `convert_to_dataframe` returns for these records. */
  function ToFrame(recs: seq<Object>): Frame
  {
    if recs == [] then Frame([], []) else Frame([FilenameKey] + Without(Columns(recs), FilenameKey), recs)
  }

  lemma {:induction false} AddColumnsSpec(cols: seq<string>, ks: seq<string>)
    ensures |AddColumns(cols, ks)| >= |cols| && AddColumns(cols, ks)[..|cols|] == cols
    ensures forall c :: c in AddColumns(cols, ks) <==> c in cols || c in ks
    ensures Distinct(cols) ==> Distinct(AddColumns(cols, ks))
    decreases |ks|
  {
    if ks != [] {
      var next := if ks[0] in cols then cols else cols + [ks[0]];
      AddColumnsSpec(next, ks[1..]);
      assert next[..|cols|] == cols;
      assert AddColumns(cols, ks)[..|cols|] == AddColumns(cols, ks)[..|next|][..|cols|];
      assert forall c :: c in ks <==> c == ks[0] || c in ks[1..];
    } else {
      assert cols[..|cols|] == cols;
    }
  }

  /** No column appears twice. */
  lemma {:induction false} ColumnsDistinct(recs: seq<Object>)
    ensures Distinct(Columns(recs))
    decreases |recs|
  {
    if recs != [] {
      var init := recs[..|recs| - 1];
      ColumnsDistinct(init);
      AddColumnsSpec(Columns(init), Keys(recs[|recs| - 1]));
    }
  }

  /** The columns are exactly the keys of the records. */
  lemma {:induction false} ColumnsKeys(recs: seq<Object>)
    ensures forall c :: c in Columns(recs) <==> exists j :: 0 <= j < |recs| && c in Keys(recs[j])
    decreases |recs|
  {
    if recs != [] {
      var n := |recs| - 1;
      var init := recs[..n];
      ColumnsKeys(init);
      AddColumnsSpec(Columns(init), Keys(recs[n]));
      forall c
        ensures c in Columns(recs) <==> exists j :: 0 <= j < |recs| && c in Keys(recs[j])
      {
        if c in Keys(recs[n]) {
          assert exists j :: 0 <= j < |recs| && c in Keys(recs[j]);
        }
        if c in Columns(init) {
          var j :| 0 <= j < n && c in Keys(init[j]);
          assert c in Keys(recs[j]);
        }
        if exists j :: 0 <= j < |recs| && c in Keys(recs[j]) {
          var j :| 0 <= j < |recs| && c in Keys(recs[j]);
          if j < n {
            assert c in Keys(init[j]);
          }
        }
      }
    }
  }

  /** The columns of the earlier records come first, in their own order. */
  lemma {:induction false} ColumnsPrefix(recs: seq<Object>, m: nat)
    requires m <= |recs|
    ensures |Columns(recs[..m])| <= |Columns(recs)|
    ensures Columns(recs)[..|Columns(recs[..m])|] == Columns(recs[..m])
    decreases |recs|
  {
    if m == |recs| {
      assert recs[..m] == recs;
    } else {
      var n := |recs| - 1;
      var init := recs[..n];
      ColumnsPrefix(init, m);
      AddColumnsSpec(Columns(init), Keys(recs[n]));
      assert init[..m] == recs[..m];
      var a := Columns(recs[..m]);
      var b := Columns(init);
      assert Columns(recs)[..|b|] == b;
      assert Columns(recs)[..|a|] == b[..|a|];
    }
  }

  /** The first record's keys are the first columns, in its key order. */
  lemma FirstColumns(recs: seq<Object>)
    requires recs != [] && DistinctKeys(recs[0])
    ensures |recs[0]| <= |Columns(recs)| && Columns(recs)[..|recs[0]|] == Keys(recs[0])
  {
    ColumnsPrefix(recs, 1);
    assert recs[..1][..0] == [];
    AddKeysFresh([], Keys(recs[0]));
  }

  /** Distinct keys added to no columns are the columns. */
  lemma {:induction false} AddKeysFresh(cols: seq<string>, ks: seq<string>)
    requires forall i, j :: 0 <= i < j < |ks| ==> ks[i] != ks[j]
    requires forall i :: 0 <= i < |ks| ==> ks[i] !in cols
    ensures AddColumns(cols, ks) == cols + ks
    decreases |ks|
  {
    if ks != [] {
      AddKeysFresh(cols + [ks[0]], ks[1..]);
      assert cols + [ks[0]] + ks[1..] == cols + ks;
    }
  }

  /** Leaving out `c` keeps the other labels in their order: it drops the
      occurrences of `c` and nothing else. */
  lemma {:induction false} WithoutSpec(cols: seq<string>, c: string)
    ensures forall x :: x in Without(cols, c) <==> x in cols && x != c
    ensures Distinct(cols) ==> Distinct(Without(cols, c))
    ensures c !in cols ==> Without(cols, c) == cols
    decreases |cols|
  {
    if cols != [] {
      WithoutSpec(cols[1..], c);
      assert cols == [cols[0]] + cols[1..];
      assert forall x :: x in cols <==> x == cols[0] || x in cols[1..];
      if Distinct(cols) {
        assert cols[0] !in cols[1..];
        var head := if cols[0] == c then [] else [cols[0]];
        var rest := Without(cols[1..], c);
        forall i, j | 0 <= i < j < |head + rest|
          ensures (head + rest)[i] != (head + rest)[j]
        {
          if i < |head| {
            assert (head + rest)[j] == rest[j - |head|];
            assert rest[j - |head|] in rest;
          }
        }
      }
    }
  }

  /** The comprehension filters a concatenation piece by piece, so the
      labels it keeps stay in the order they had. */
  lemma {:induction false} WithoutAppend(a: seq<string>, b: seq<string>, c: string)
    ensures Without(a + b, c) == Without(a, c) + Without(b, c)
    decreases |a|
  {
    if a == [] {
      assert a + b == b;
    } else {
      assert (a + b)[0] == a[0];
      assert (a + b)[1..] == a[1..] + b;
      WithoutAppend(a[1..], b, c);
    }
  }

  /** Moving `filename` to the front keeps the other columns in the order
      pandas gave them: the columns before it, then the columns after it. */
  lemma FrameColumnsOrder(recs: seq<Object>, before: seq<string>, after: seq<string>)
    requires Columns(recs) == before + [FilenameKey] + after
    ensures ToFrame(recs).columns == [FilenameKey] + before + after
  {
    ColumnsDistinct(recs);
    DistinctAround(Columns(recs), before, FilenameKey, after);
    WithoutAppend(before + [FilenameKey], after, FilenameKey);
    WithoutAppend(before, [FilenameKey], FilenameKey);
    WithoutSpec(before, FilenameKey);
    WithoutSpec(after, FilenameKey);
    assert Without([FilenameKey], FilenameKey) == [];
  }

  /** Records without a `filename` key get it as a new first column, the
      other columns in the order pandas gave them. */
  lemma FrameColumnsAdded(recs: seq<Object>)
    requires recs != [] && FilenameKey !in Columns(recs)
    ensures ToFrame(recs).columns == [FilenameKey] + Columns(recs)
  {
    WithoutSpec(Columns(recs), FilenameKey);
  }

  /** In a sequence without repeats, an element occurs neither before nor
      after its own position. */
  lemma DistinctAround<T>(s: seq<T>, before: seq<T>, x: T, after: seq<T>)
    requires s == before + [x] + after
    requires forall i, j :: 0 <= i < j < |s| ==> s[i] != s[j]
    ensures x !in before && x !in after
  {
    forall i | 0 <= i < |before|
      ensures before[i] != x
    {
      assert before[i] == s[i] && x == s[|before|];
    }
    forall i | 0 <= i < |after|
      ensures after[i] != x
    {
      assert after[i] == s[|before| + 1 + i] && x == s[|before|];
    }
  }

  /** A non-empty table has `filename` as its first column, distinct column
      labels, and exactly the records' keys (with `filename`) as columns; the
      empty table has neither rows nor columns. */
  lemma FrameColumns(recs: seq<Object>)
    ensures ToFrame(recs).records == recs
    ensures recs == [] ==> ToFrame(recs).columns == []
    ensures recs != [] ==>
      var cols := ToFrame(recs).columns;
      && cols[0] == FilenameKey
      && Distinct(cols)
      && forall c :: c in cols <==> c == FilenameKey || exists j :: 0 <= j < |recs| && c in Keys(recs[j])
  {
    if recs != [] {
      ColumnsDistinct(recs);
      ColumnsKeys(recs);
      WithoutSpec(Columns(recs), FilenameKey);
      var rest := Without(Columns(recs), FilenameKey);
      var cols := [FilenameKey] + rest;
      forall i, j | 0 <= i < j < |cols|
        ensures cols[i] != cols[j]
      {
        if i == 0 {
          assert cols[j] == rest[j - 1];
          assert rest[j - 1] in rest;
        } else {
          assert cols[i] == rest[i - 1] && cols[j] == rest[j - 1];
        }
      }
    }
  }

  /** `convert_to_dataframe(extracted_data)`. Each record is made from its
      line item and appended to `all_records`; a line item that cannot be
      made a record ends the conversion with its exception. */
  method ConvertToDataFrame(extractedData: seq<Extraction>) returns (r: Result<Frame>)
    ensures AllRecords(extractedData).Err? ==> r == Err(AllRecords(extractedData).error)
    ensures AllRecords(extractedData).Ok? ==> r == Ok(ToFrame(AllRecords(extractedData).value))
  {
    var allRecords: seq<Object> := [];
    var i := 0;
    while i < |extractedData|
      invariant 0 <= i <= |extractedData|
      invariant AllRecords(extractedData[..i]) == Ok(allRecords)
    {
      var item := extractedData[i];
      var filename := item.filename;
      var data := item.data;
      ghost var before := allRecords;
      assert extractedData[..i + 1][..i] == extractedData[..i];
      if data.JArray? {
        var j := 0;
        while j < |data.items|
          invariant 0 <= j <= |data.items|
          invariant LineRecords(data.items[..j], filename).Ok?
          invariant allRecords == before + LineRecords(data.items[..j], filename).value
        {
          var record := TagRecord(data.items[j], filename);
          assert data.items[..j + 1][..j] == data.items[..j];
          if record.Err? {
            LineRecordsStop(data.items, filename, j + 1);
            AllRecordsStop(extractedData, i + 1);
            return Err(record.error);
          }
          allRecords := allRecords + [record.value];
          j := j + 1;
        }
        assert data.items[..j] == data.items;
      } else {
        var record := TagRecord(data, filename);
        if record.Err? {
          AllRecordsStop(extractedData, i + 1);
          return Err(record.error);
        }
        allRecords := allRecords + [record.value];
      }
      i := i + 1;
    }
    assert extractedData[..i] == extractedData;
    if |allRecords| > 0 {
      var cols := [FilenameKey] + Without(Columns(allRecords), FilenameKey);
      r := Ok(Frame(cols, allRecords));
    } else {
      r := Ok(Frame([], []));
    }
  }

  // ---------------------------------------------------------------------
  // process_api_response
  // ---------------------------------------------------------------------

  /** The characters of the argument of `.strip("```json")`. */
  const FenceChars: set<char> := {'`', 'j', 's', 'o', 'n'}

  /** `s.strip().strip("```json").strip("```")`. */
  function CleanResponse(s: string): string
  {
    Strip(Strip(Strip(s, PyWhitespace), FenceChars), {'`'})
  }

  /** The cleaned reply neither starts nor ends with a backtick or one of the
      letters `j`, `s`, `o`, `n`, so the last `.strip("```")` never removes
      anything. */
  lemma CleanResponseSpec(s: string)
    ensures CleanResponse(s) == Strip(Strip(s, PyWhitespace), FenceChars)
    ensures var r := CleanResponse(s); r != [] ==> r[0] !in FenceChars && r[|r| - 1] !in FenceChars
  {
    var b := Strip(Strip(s, PyWhitespace), FenceChars);
    StripProperties(Strip(s, PyWhitespace), FenceChars);
    StripNothing(b, {'`'});
  }

  /** A reply fenced as a `json` code block gives back the text inside the
      fence, provided that text neither starts nor ends with a fence
      character. */
  lemma CleanFenced(t: string)
    requires t != [] && t[0] !in FenceChars && t[|t| - 1] !in FenceChars
    ensures CleanResponse("```json" + t + "```") == t
  {
    var s := "```json" + t + "```";
    FenceEnds(t);
    StripNothing(s, PyWhitespace);
    FenceStrip(t);
    StripNothing(t, {'`'});
  }

  lemma FenceEnds(t: string)
    ensures var s := "```json" + t + "```"; s[0] == '`' && s[|s| - 1] == '`'
  {
  }

  lemma FenceStrip(t: string)
    requires t != [] && t[0] !in FenceChars && t[|t| - 1] !in FenceChars
    ensures Strip("```json" + t + "```", FenceChars) == t
  {
    var p := "```json";
    assert forall k :: 0 <= k < |p| ==> p[k] in FenceChars by {
      assert p[0] == '`' && p[1] == '`' && p[2] == '`' && p[3] == 'j' && p[4] == 's' && p[5] == 'o' && p[6] == 'n';
    }
    StripFramed(p, t, "```", FenceChars);
  }

  /** The argument of `.strip` is a set of characters, not a prefix: a bare
      `null` reply loses its leading `n` and no longer decodes. */
  lemma CleanNullReply()
    ensures CleanResponse("null") == "ull"
  {
    var t := "ull";
    var s := "n" + t;
    assert s == "null";
    StripNothing(s, PyWhitespace);
    assert s[1..] == t;
    StripExact(s, FenceChars, 1, 4);
    StripNothing(t, {'`'});
  }

  /** `s in t` for strings. */
  predicate IsSubstring(p: string, t: string)
  {
    exists i: nat :: i <= |t| && OccursAt(p, t, i)
  }

  predicate OccursAt(p: string, t: string, i: nat)
  {
    i + |p| <= |t| && t[i..i + |p|] == p
  }

  /** The body of the loop over a decoded list: `'Delivery Address' in item`
      is key membership on a dict, element membership on a list and
      substring search on a string, and raises `TypeError` on anything else;
      indexing a list or a string by the key raises `TypeError` too. */
  function FixItem(item: Json): Result<Json>
  {
    match item
    case JObject(o) =>
      (match FixAddress(o) case Err(e) => Err(e) case Ok(o') => Ok(JObject(o')))
    case JArray(xs) => if JString(DeliveryAddress) in xs then Err(TypeError) else Ok(item)
    case JString(t) => if IsSubstring(DeliveryAddress, t) then Err(TypeError) else Ok(item)
    case _ => Err(TypeError)
  }

  /** The list after the loop fixed its items in place, up to the first failure. */
  function FixItems(items: seq<Json>): Result<seq<Json>>
    decreases |items|
  {
    if items == [] then Ok([])
    else
      match FixItems(items[..|items| - 1])
      case Err(e) => Err(e)
      case Ok(done) =>
        match FixItem(items[|items| - 1])
        case Err(e) => Err(e)
        case Ok(item) => Ok(done + [item])
  }

  /** The decoded reply after its addresses were fixed: a list item by item,
      a dict as a whole, any other value untouched. */
  function FixResponse(j: Json): Result<Json>
  {
    match j
    case JArray(xs) => (match FixItems(xs) case Err(e) => Err(e) case Ok(ys) => Ok(JArray(ys)))
    case JObject(o) => (match FixAddress(o) case Err(e) => Err(e) case Ok(o') => Ok(JObject(o')))
    case _ => Ok(j)
  }

  lemma {:induction false} FixItemsStop(items: seq<Json>, m: nat)
    requires m <= |items| && FixItems(items[..m]).Err?
    ensures FixItems(items) == FixItems(items[..m])
    decreases |items|
  {
    if m < |items| {
      var init := items[..|items| - 1];
      assert init[..m] == items[..m];
      FixItemsStop(init, m);
    } else {
      assert items[..m] == items;
    }
  }

  /** The fixed list has one item per item, each the fix of its item; it
      fails exactly when some item fails. */
  lemma {:induction false} FixItemsSpec(items: seq<Json>)
    ensures FixItems(items).Ok? <==> forall k :: 0 <= k < |items| ==> FixItem(items[k]).Ok?
    ensures FixItems(items).Ok? ==>
      var ys := FixItems(items).value;
      |ys| == |items| && forall k :: 0 <= k < |items| ==> FixItem(items[k]) == Ok(ys[k])
    decreases |items|
  {
    if items != [] {
      var init := items[..|items| - 1];
      FixItemsSpec(init);
      assert forall k :: 0 <= k < |init| ==> init[k] == items[k];
    }
  }

  /** A successfully fixed item is the item itself or, for a dict, the dict
      with everything but its address unchanged and the address clean. */
  lemma FixItemSpec(item: Json)
    ensures FixItem(item).Ok? ==>
      if item.JObject? then
        var o := FixItem(item).value;
        o.JObject? && AddressClean(o.fields) && Keys(o.fields) == Keys(item.fields) &&
        forall k :: k != DeliveryAddress ==> Lookup(o.fields, k) == Lookup(item.fields, k)
      else FixItem(item) == Ok(item) && (item.JArray? || item.JString?)
  {
    if item.JObject? {
      FixAddressSpec(item.fields);
    }
  }

  /** Every dict of a reply, at the top or as an item of a top-level list,
      has a clean address. */
  predicate AddressesClean(j: Json)
  {
    match j
    case JObject(o) => AddressClean(o)
    case JArray(xs) => forall k :: 0 <= k < |xs| && xs[k].JObject? ==> AddressClean(xs[k].fields)
    case _ => true
  }

  /** Fixing a reply fails exactly when one of its fixes fails; a fixed reply
      has the same shape (a list keeps its length and its non-dict items, a
      dict its keys, any other value is untouched) and clean addresses. */
  lemma FixResponseSpec(j: Json)
    ensures FixResponse(j).Ok? <==>
      (j.JArray? ==> forall k :: 0 <= k < |j.items| ==> FixItem(j.items[k]).Ok?) &&
      (j.JObject? ==> FixAddress(j.fields).Ok?)
    ensures FixResponse(j).Ok? ==>
      var j' := FixResponse(j).value;
      && AddressesClean(j')
      && (j.JArray? ==> j'.JArray? && |j'.items| == |j.items|)
      && (j.JArray? ==> forall k :: 0 <= k < |j.items| && !j.items[k].JObject? ==> j'.items[k] == j.items[k])
      && (j.JObject? ==> j'.JObject? && Keys(j'.fields) == Keys(j.fields))
      && (!j.JArray? && !j.JObject? ==> j' == j)
  {
    match j
    case JArray(xs) =>
      FixItemsSpec(xs);
      if FixItems(xs).Ok? {
        var ys := FixItems(xs).value;
        forall k | 0 <= k < |xs|
          ensures ys[k].JObject? ==> AddressClean(ys[k].fields)
          ensures !xs[k].JObject? ==> ys[k] == xs[k]
        {
          FixItemSpec(xs[k]);
        }
      }
    case JObject(o) => FixAddressSpec(o);
    case _ =>
  }

  /** The loop over a decoded list, which fixes each item in place. */
  method FixListItems(list: seq<Json>) returns (r: Result<seq<Json>>)
    ensures r == FixItems(list)
  {
    var items := list;
    var k := 0;
    while k < |items|
      invariant 0 <= k <= |items| == |list|
      invariant FixItems(list[..k]) == Ok(items[..k])
      invariant items[k..] == list[k..]
    {
      assert items[k] == list[k];
      var fixed := FixItem(items[k]);
      assert list[..k + 1][..k] == list[..k];
      if fixed.Err? {
        FixItemsStop(list, k + 1);
        return Err(fixed.error);
      }
      items := items[k := fixed.value];
      assert items[..k + 1] == items[..k] + [fixed.value];
      k := k + 1;
    }
    assert list[..k] == list && items[..k] == items;
    r := Ok(items);
  }

  /** `process_api_response(extract_contents, pdf_file_name)`. `json.loads` is
      the parameter `loads`, whose `None` stands for `JSONDecodeError`; the
      other exceptions of the address fix are not caught. */
  method ProcessApiResponse(extractContents: string, pdfFileName: string, loads: string -> Option<Json>)
    returns (r: Result<Option<Extraction>>)
    ensures loads(CleanResponse(extractContents)).None? ==> r == Ok(None)
    ensures loads(CleanResponse(extractContents)).Some? ==>
      var fixed := FixResponse(loads(CleanResponse(extractContents)).value);
      (fixed.Err? ==> r == Err(fixed.error)) &&
      (fixed.Ok? ==> r == Ok(Some(Extraction(pdfFileName, fixed.value))))
  {
    var contents := Strip(extractContents, PyWhitespace);
    contents := Strip(contents, FenceChars);
    contents := Strip(contents, {'`'});
    assert contents == CleanResponse(extractContents);
    var parsed := loads(contents);
    if parsed.None? {
      return Ok(None);
    }
    var fixed := FixParsed(parsed.value);
    if fixed.Err? {
      return Err(fixed.error);
    }
    r := Ok(Some(Extraction(pdfFileName, fixed.value)));
  }

  /** The address fix of a decoded reply: each item of a list in turn, or the
      dict itself; any other value is kept. */
  method FixParsed(parsed: Json) returns (r: Result<Json>)
    ensures r == FixResponse(parsed)
  {
    var json := parsed;
    if json.JArray? {
      var items := FixListItems(json.items);
      if items.Err? {
        return Err(items.error);
      }
      json := JArray(items.value);
    } else if json.JObject? {
      var fixed := FixAddress(json.fields);
      if fixed.Err? {
        return Err(fixed.error);
      }
      json := JObject(fixed.value);
    }
    r := Ok(json);
  }

  /** Along the pipeline the address is fixed twice, once when the reply is
      processed and once when the table is made. The second fix changes
      nothing: every dict of a processed reply makes a record whose address
      is the one the reply was left with. */
  lemma PipelineAddress(j: Json, filename: string)
    requires FixResponse(j).Ok?
    ensures var x := Extraction(filename, FixResponse(j).value);
      forall k :: 0 <= k < RecordCount(x) && ItemAt(x, k).JObject? ==>
        TagRecord(ItemAt(x, k), filename).Ok? &&
        Lookup(TagRecord(ItemAt(x, k), filename).value, DeliveryAddress) == Lookup(ItemAt(x, k).fields, DeliveryAddress)
  {
    var x := Extraction(filename, FixResponse(j).value);
    forall k | 0 <= k < RecordCount(x) && ItemAt(x, k).JObject?
      ensures TagRecord(ItemAt(x, k), filename).Ok? &&
        Lookup(TagRecord(ItemAt(x, k), filename).value, DeliveryAddress) == Lookup(ItemAt(x, k).fields, DeliveryAddress)
    {
      if j.JArray? {
        FixItemsSpec(j.items);
        FixItemSpec(j.items[k]);
      } else {
        FixAddressSpec(j.fields);
      }
      RetagClean(ItemAt(x, k), filename);
    }
  }

  /** Making a record of a dict whose address is already clean keeps the address. */
  lemma RetagClean(item: Json, filename: string)
    requires item.JObject? && AddressClean(item.fields)
    ensures TagRecord(item, filename).Ok?
    ensures Lookup(TagRecord(item, filename).value, DeliveryAddress) == Lookup(item.fields, DeliveryAddress)
  {
    TagRecordSpec(item, filename);
    if Lookup(item.fields, DeliveryAddress).Some? {
      CleanAddressFixed(Lookup(item.fields, DeliveryAddress).value.s);
    }
  }
}
