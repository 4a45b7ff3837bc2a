/** The multi-format data manager: the shapes it writes to and reads from CSV,
    pipe-delimited text, the JSON envelope and SQLite tables, and the dispatch
    of a format conversion. Parsing and writing by the json, csv, yaml and
    sqlite3 libraries are not modelled: a CSV file is given as its rows of
    cells, a JSON file as its parsed document. */
module DataFiles {
  import opened Basics
  import opened Text
  import opened Values

  // ---------------------------------------------------------------------------
  // Ordering of text, as Python compares `str` values

  /** `a < b` for Python strings: code point by code point, a proper prefix first. */
  predicate StrLess(a: string, b: string) {
    if a == [] then b != []
    else if b == [] then false
    else if a[0] < b[0] then true
    else if a[0] == b[0] then StrLess(a[1..], b[1..])
    else false
  }

  lemma {:induction false} StrLessIrreflexive(a: string)
    ensures !StrLess(a, a)
  {
    if a != [] {
      StrLessIrreflexive(a[1..]);
    }
  }

  lemma {:induction false} StrLessTransitive(a: string, b: string, c: string)
    requires StrLess(a, b) && StrLess(b, c)
    ensures StrLess(a, c)
  {
    if a != [] && b != [] && c != [] && a[0] == b[0] && b[0] == c[0] {
      StrLessTransitive(a[1..], b[1..], c[1..]);
    }
  }

  lemma {:induction false} StrLessTotal(a: string, b: string)
    requires a != b
    ensures StrLess(a, b) || StrLess(b, a)
  {
    if a != [] && b != [] && a[0] == b[0] {
      assert a == [a[0]] + a[1..] && b == [b[0]] + b[1..];
      StrLessTotal(a[1..], b[1..]);
    }
  }

  ghost predicate StrictlySorted(xs: seq<string>) {
    forall i, j :: 0 <= i < j < |xs| ==> StrLess(xs[i], xs[j])
  }

  /** Adds `k` to a strictly sorted list of distinct keys, keeping it sorted. */
  function Insert(xs: seq<string>, k: string): (r: seq<string>)
    requires StrictlySorted(xs)
    ensures StrictlySorted(r)
    ensures forall x :: x in r <==> x in xs || x == k
  {
    if xs == [] then [k]
    else if xs[0] == k then xs
    else if StrLess(k, xs[0]) then
      assert forall j :: 0 < j < |xs| ==> StrLess(k, xs[j]) by {
        forall j | 0 < j < |xs| ensures StrLess(k, xs[j]) { StrLessTransitive(k, xs[0], xs[j]); }
      }
      [k] + xs
    else
      StrLessTotal(k, xs[0]);
      var rest := Insert(xs[1..], k);
      assert forall x :: x in rest ==> StrLess(xs[0], x) by {
        forall x | x in rest ensures StrLess(xs[0], x) {
          if x != k {
            var j :| 0 <= j < |xs[1..]| && xs[1..][j] == x;
            assert xs[j + 1] == x;
          }
        }
      }
      [xs[0]] + rest
  }

  function InsertAll(xs: seq<string>, ks: seq<string>): (r: seq<string>)
    requires StrictlySorted(xs)
    ensures StrictlySorted(r)
    ensures forall x :: x in r <==> x in xs || x in ks
    decreases |ks|
  {
    if ks == [] then xs
    else
      var r := InsertAll(Insert(xs, ks[0]), ks[1..]);
      assert forall x :: x in ks <==> x == ks[0] || x in ks[1..];
      r
  }

  /** The header `save_csv` writes: the union of the keys of all records,
      sorted, each key once. */
  function CsvHeader(records: seq<Entries<Value>>): (header: seq<string>)
    ensures StrictlySorted(header)
    ensures forall k :: k in header <==> exists i :: 0 <= i < |records| && k in KeysOf(records[i])
  {
    if records == [] then []
    else
      var init := records[..|records| - 1];
      assert forall i :: 0 <= i < |init| ==> init[i] == records[i];
      InsertAll(CsvHeader(init), KeysOf(records[|records| - 1]))
  }

  /** A strictly sorted header repeats no key. */
  lemma SortedHeaderDistinct(header: seq<string>)
    requires StrictlySorted(header)
    ensures forall i, j :: 0 <= i < j < |header| ==> header[i] != header[j]
  {
    forall i, j | 0 <= i < j < |header| ensures header[i] != header[j] {
      StrLessIrreflexive(header[i]);
    }
  }

  // ---------------------------------------------------------------------------
  // CSV

  /** What the csv writer puts in a cell for a dictionary value: empty for a
      missing key or None, `str(v)` otherwise. */
  function CsvCell(v: Option<Value>): string {
    match v
    case None => ""
    case Some(VNone) => ""
    case Some(x) => Render(x)
  }

  datatype CsvTable = CsvTable(header: seq<string>, rows: seq<seq<string>>)

  /** The table `save_csv` writes: None (it returns false) for an empty list or
      an element that is not a dictionary. */
  function SaveCsv(items: seq<Value>): (t: Option<CsvTable>)
    ensures t.Some? <==> items != [] && forall i :: 0 <= i < |items| ==> items[i].VDict?
    ensures t.Some? ==> StrictlySorted(t.value.header)
    ensures t.Some? ==> forall k :: k in t.value.header <==> exists i :: 0 <= i < |items| && k in KeysOf(items[i].entries)
    ensures t.Some? ==> |t.value.rows| == |items| && forall r :: r in t.value.rows ==> |r| == |t.value.header|
    ensures t.Some? ==> forall i, j :: 0 <= i < |items| && 0 <= j < |t.value.header| ==>
      t.value.rows[i][j] == CsvCell(Lookup(items[i].entries, t.value.header[j]))
  {
    if items == [] || exists i :: 0 <= i < |items| && !items[i].VDict? then None
    else
      var records := seq(|items|, i requires 0 <= i < |items| => items[i].entries);
      assert forall i :: 0 <= i < |items| ==> records[i] == items[i].entries;
      var header := CsvHeader(records);
      Some(CsvTable(header, seq(|records|, i requires 0 <= i < |records| =>
        seq(|header|, j requires 0 <= j < |header| => CsvCell(Lookup(records[i], header[j]))))))
  }

  /** `str.isdigit()` on ASCII text: non-empty and all decimal digits. */
  predicate IsDigitText(s: string) {
    s != [] && AllDigits(s)
  }

  /** The text with every occurrence of `c` removed (`s.replace(c, '')`). */
  function Without(s: string, c: char): (r: string)
    ensures |r| <= |s| && c !in r
    ensures forall x :: x in r <==> x in s && x != c
  {
    if s == [] then []
    else (if s[0] == c then [] else [s[0]]) + Without(s[1..], c)
  }

  /** The type `load_csv` gives one cell, tried in order: empty is None,
      true/false in any case a bool, digits once `.` and `-` are removed a float
      (with a `.`) or an int, anything else stays text. Err when the `float()` or
      `int()` conversion raises. */
  function InferCell(value: string): Result<Value> {
    if value == "" then Ok(VNone)
    else if Lower(value) == "true" || Lower(value) == "false" then Ok(VBool(Lower(value) == "true"))
    else if IsDigitText(Without(Without(value, '.'), '-')) then
      if '.' in value then
        match ToFloat(VStr(value)) case Some(r) => Ok(VFloat(r)) case None => Err("could not convert string to float")
      else
        match ToInt(VStr(value)) case Some(i) => Ok(VInt(i)) case None => Err("invalid literal for int()")
    else Ok(VStr(value))
  }

  /** The order in which `load_csv` tries the types of a cell: None only for
      the empty cell, a boolean exactly for `true`/`false` in any case, a number
      or a conversion error exactly for other digit texts, and text otherwise,
      kept as it is. */
  lemma InferCellOrder(value: string)
    ensures InferCell(value) == Ok(VNone) <==> value == ""
    ensures InferCell(value).Ok? && InferCell(value).value.VBool? <==> Lower(value) == "true" || Lower(value) == "false"
    ensures InferCell(value).Ok? && InferCell(value).value.VBool? ==> InferCell(value).value.b == (Lower(value) == "true")
    ensures (InferCell(value).Err? || (InferCell(value).Ok? && (InferCell(value).value.VInt? || InferCell(value).value.VFloat?))) <==>
      value != "" && Lower(value) != "true" && Lower(value) != "false" && IsDigitText(Without(Without(value, '.'), '-'))
    ensures InferCell(value).Ok? && InferCell(value).value.VFloat? ==> '.' in value
    ensures InferCell(value).Ok? && InferCell(value).value.VInt? ==> '.' !in value
    ensures InferCell(value).Ok? && InferCell(value).value.VStr? ==> InferCell(value).value.s == value
  {
  }

  /** Values `load_csv` reads back as they were written: None, booleans,
      integers, and floats in whole cents that `str()` writes positionally. */
  lemma CellRoundTrip(v: Value)
    requires v.VNone? || v.VBool? || v.VInt? || (v.VFloat? && WholeCents(v.r) && PositionalFloat(v.r))
    ensures InferCell(CsvCell(Some(v))) == Ok(v)
  {
    var t := CsvCell(Some(v));
    if v.VInt? || v.VFloat? {
      assert t != "";
      NumberTextOmits(v, 'T');
      NumberTextOmits(v, 't');
      NumberTextOmits(v, 'F');
      NumberTextOmits(v, 'f');
      assert t[0] in t;
      assert Lower(t)[0] == LowerChar(t[0]);
      NumberDigitsOnly(v);
      if v.VInt? {
        NumberTextOmits(v, '.');
        IntTextRoundTrip(v.i);
      } else {
        FloatTextRoundTrip(v.r);
        FloatTextHasPoint(v.r);
      }
    }
  }

  /** Removing `.` and `-` from `str()` of a number leaves its digits. */
  lemma NumberDigitsOnly(v: Value)
    requires v.VInt? || (v.VFloat? && PositionalFloat(v.r))
    ensures IsDigitText(Without(Without(Render(v), '.'), '-'))
  {
    var t := Render(v);
    forall c | c in t ensures IsDigit(c) || c == '.' || c == '-' {
      if !IsDigit(c) && c != '.' && c != '-' { NumberTextOmits(v, c); }
    }
    var w := Without(Without(t, '.'), '-');
    assert forall k :: 0 <= k < |w| ==> IsDigit(w[k]) by {
      forall k | 0 <= k < |w| ensures IsDigit(w[k]) { assert w[k] in w; }
    }
    if v.VInt? {
      var d := FormatNat(if v.i < 0 then -v.i else v.i);
      assert d[0] in t by { if v.i < 0 { assert t[1] == d[0]; } else { assert t[0] == d[0]; } }
      assert d[0] in w;
    } else {
      var c := Cents(v.r);
      var u := UnsignedDecimalText(if c < 0 then -c else c);
      UnsignedDecimalShape(if c < 0 then -c else c);
      assert t == (if c < 0 then "-" + u else u);
      assert u[0] in t by { if c < 0 { assert t[1] == u[0]; } else { assert t[0] == u[0]; } }
      assert u[0] in w;
    }
  }

  /** A float that `str()` writes positionally has a point in its text. */
  lemma FloatTextHasPoint(r: real)
    requires PositionalFloat(r)
    ensures '.' in Render(VFloat(r))
  {
    var c := Cents(r);
    var a: nat := if c < 0 then -c else c;
    var u := UnsignedDecimalText(a);
    UnsignedDecimalShape(a);
    var t := Render(VFloat(r));
    assert t == (if c < 0 then "-" + u else u);
    var k := |FormatNat(a / 100)|;
    if c < 0 {
      assert t[k + 1] == '.';
    } else {
      assert t[k] == '.';
    }
  }

  /** One row of `csv.DictReader` turned into a record: each header key, in
      order, maps to its inferred cell (a repeated key keeps its first position
      and its last value). Err when the row's length differs from the header's,
      since the reader then fills in None or collects a list, whose `lower()`
      raises, or when a conversion raises. */
  function ProcessRow(header: seq<string>, row: seq<string>): Result<Entries<Value>>
    decreases |row|
  {
    if |row| != |header| then Err("row length differs from header")
    else if row == [] then Ok([])
    else
      var n := |row| - 1;
      match ProcessRow(header[..n], row[..n])
      case Err(m) => Err(m)
      case Ok(rec) =>
        match InferCell(row[n])
        case Err(m) => Err(m)
        case Ok(v) => Ok(Put(rec, header[n], v))
  }

  /** A processed row has exactly the header's keys. */
  lemma PutHasKey<V>(d: Entries<V>, key: string, v: V, k: string)
    ensures HasKey(Put(d, key, v), k) <==> k == key || HasKey(d, k)
  {
    LookupPut(d, key, v, k);
  }

  /** A converted row is the converted row before its last cell, with that cell put under its column. */
  lemma ProcessRowLast(header: seq<string>, row: seq<string>)
    requires ProcessRow(header, row).Ok? && row != []
    ensures ProcessRow(header[..|row| - 1], row[..|row| - 1]).Ok? && InferCell(row[|row| - 1]).Ok?
    ensures ProcessRow(header, row).value ==
      Put(ProcessRow(header[..|row| - 1], row[..|row| - 1]).value, header[|row| - 1], InferCell(row[|row| - 1]).value)
  {
  }

  lemma {:induction false} ProcessRowKeys(header: seq<string>, row: seq<string>, k: string)
    requires ProcessRow(header, row).Ok?
    ensures HasKey(ProcessRow(header, row).value, k) <==> k in header
    decreases |row|
  {
    if row != [] {
      var n := |row| - 1;
      ProcessRowKeys(header[..n], row[..n], k);
      ProcessRowLast(header, row);
      PutHasKey(ProcessRow(header[..n], row[..n]).value, header[n], InferCell(row[n]).value, k);
      assert header == header[..n] + [header[n]];
    }
  }

  /** The records `load_csv` builds from the data rows, skipping blank rows;
      Err as soon as one row fails. */
  function ProcessRows(header: seq<string>, rows: seq<seq<string>>): Result<seq<Entries<Value>>> {
    if rows == [] then Ok([])
    else
      match ProcessRows(header, rows[..|rows| - 1])
      case Err(m) => Err(m)
      case Ok(done) =>
        var row := rows[|rows| - 1];
        if row == [] then Ok(done)
        else match ProcessRow(header, row)
          case Err(m) => Err(m)
          case Ok(rec) => Ok(done + [rec])
  }

  /** `load_csv`: [] for a missing file, an empty file, or any row that fails;
      otherwise one record per non-blank data row. The first row is the header. */
  function LoadCsvSpec(file: Option<seq<seq<string>>>): seq<Entries<Value>> {
    if file.None? || file.value == [] then []
    else match ProcessRows(file.value[0], file.value[1..])
      case Err(_) => []
      case Ok(records) => records
  }

  /** The loop of `load_csv` that fills `processed_row` for one row. */
  method ProcessRowLoop(header: seq<string>, row: seq<string>) returns (r: Result<Entries<Value>>)
    requires |row| == |header|
    ensures r.Ok? <==> ProcessRow(header, row).Ok?
    ensures r.Ok? ==> r == ProcessRow(header, row)
  {
    var processed: Entries<Value> := [];
    var j := 0;
    while j < |row|
      invariant 0 <= j <= |row|
      invariant ProcessRow(header[..j], row[..j]) == Ok(processed)
    {
      var v := InferCell(row[j]);
      assert header[..j + 1][..j] == header[..j] && row[..j + 1][..j] == row[..j];
      if v.Err? {
        assert ProcessRow(header[..j + 1], row[..j + 1]).Err?;
        RowStopsAtError(header, row, j + 1);
        return Err(v.message);
      }
      processed := Put(processed, header[j], v.value);
      j := j + 1;
    }
    assert header[..j] == header && row[..j] == row;
    return Ok(processed);
  }

  /** `load_csv`, as the loops that fill `processed_row` and `data`. */
  method LoadCsv(file: Option<seq<seq<string>>>) returns (data: seq<Entries<Value>>)
    ensures data == LoadCsvSpec(file)
  {
    if file.None? || file.value == [] {
      return [];
    }
    var header := file.value[0];
    var rows := file.value[1..];
    data := [];
    var i := 0;
    while i < |rows|
      invariant 0 <= i <= |rows|
      invariant ProcessRows(header, rows[..i]) == Ok(data)
    {
      var row := rows[i];
      ProcessRowsStep(header, rows, i, data);
      if row != [] {
        var processed: Result<Entries<Value>> := Err("row length differs from header");
        if |row| == |header| {
          processed := ProcessRowLoop(header, row);
        }
        if processed.Err? {
          RowsStopAtError(header, rows, i + 1);
          LoadCsvFails(file, header, rows);
          return [];
        }
        data := data + [processed.value];
      }
      i := i + 1;
    }
    assert rows[..i] == rows;
  }

  /** One more data row: skipped when blank, otherwise converted and appended. */
  lemma ProcessRowsStep(header: seq<string>, rows: seq<seq<string>>, i: nat, data: seq<Entries<Value>>)
    requires i < |rows| && ProcessRows(header, rows[..i]) == Ok(data)
    ensures rows[i] == [] ==> ProcessRows(header, rows[..i + 1]) == Ok(data)
    ensures rows[i] != [] ==>
              ProcessRows(header, rows[..i + 1]) ==
                match ProcessRow(header, rows[i])
                case Err(m) => Err(m)
                case Ok(rec) => Ok(data + [rec])
  {
    assert rows[..i + 1][..i] == rows[..i];
  }

  lemma LoadCsvFails(file: Option<seq<seq<string>>>, header: seq<string>, rows: seq<seq<string>>)
    requires file.Some? && file.value != [] && header == file.value[0] && rows == file.value[1..]
    requires ProcessRows(header, rows).Err?
    ensures LoadCsvSpec(file) == []
  {
  }

  lemma {:induction false} RowStopsAtError(header: seq<string>, row: seq<string>, j: nat)
    requires |row| == |header| && 0 < j <= |row| && ProcessRow(header[..j], row[..j]).Err?
    ensures ProcessRow(header, row).Err?
    decreases |row| - j
  {
    if j < |row| {
      assert header[..j + 1][..j] == header[..j] && row[..j + 1][..j] == row[..j];
      RowStopsAtError(header, row, j + 1);
    } else {
      assert header[..j] == header && row[..j] == row;
    }
  }

  lemma {:induction false} RowsStopAtError(header: seq<string>, rows: seq<seq<string>>, i: nat)
    requires i <= |rows| && ProcessRows(header, rows[..i]).Err?
    ensures ProcessRows(header, rows).Err?
    decreases |rows| - i
  {
    if i < |rows| {
      assert rows[..i + 1][..i] == rows[..i];
      RowsStopAtError(header, rows, i + 1);
    } else {
      assert rows[..i] == rows;
    }
  }

  // ---------------------------------------------------------------------------
  // Pipe-delimited text

  /** The text of each value of a record, in order. */
  function Texts(record: Entries<Value>): (texts: seq<string>)
    ensures |texts| == |record|
  {
    seq(|record|, i requires 0 <= i < |record| => Render(record[i].1))
  }

  /** The line `save_txt` writes for a record: its values' `str()` joined by the
      delimiter, in key order. */
  function TxtRecordLine(record: Entries<Value>, delimiter: char): string {
    Join(Texts(record), delimiter)
  }

  /** `save_txt`: None (it returns false) for an empty list; otherwise one line
      per record, each ended by a line break. */
  function SaveTxt(records: seq<Entries<Value>>, delimiter: char): (text: Option<string>)
    ensures text.Some? <==> records != []
  {
    if records == [] then None
    else Some(Join(seq(|records|, i requires 0 <= i < |records| => TxtRecordLine(records[i], delimiter)) + [""], '\n'))
  }

  /** The `field_0`, `field_1`, ... keys `load_txt` uses without headers. */
  function FieldKey(i: nat): string {
    "field_" + FormatNat(i)
  }

  /** `dict(zip(keys, values))`: pairs up to the shorter list; a repeated key
      keeps its first position and its last value. */
  function Zip(keys: seq<string>, values: seq<string>): (r: Entries<Value>)
    decreases |keys| + |values|
  {
    if keys == [] || values == [] then []
    else if |keys| > |values| then Zip(keys[..|values|], values)
    else if |keys| < |values| then Zip(keys, values[..|keys|])
    else
      var n := |keys| - 1;
      Put(Zip(keys[..n], values[..n]), keys[n], VStr(values[n]))
  }

  /** The record `load_txt` makes of one stripped, non-blank line. */
  function TxtRecord(line: string, delimiter: char, headers: seq<string>): Entries<Value> {
    var values := Split(line, delimiter);
    if headers != [] then Zip(headers, values)
    else seq(|values|, i requires 0 <= i < |values| => (FieldKey(i), VStr(values[i])))
  }

  /** The records `load_txt` reads from the lines of a file: each line is
      stripped, blank lines are skipped. */
  function TxtRecords(lines: seq<string>, delimiter: char, headers: seq<string>): seq<Entries<Value>> {
    if lines == [] then []
    else
      var line := Strip(lines[|lines| - 1]);
      TxtRecords(lines[..|lines| - 1], delimiter, headers) + (if line == [] then [] else [TxtRecord(line, delimiter, headers)])
  }

  /** `load_txt(path, delimiter, headers)`: [] for a missing file. */
  method LoadTxt(file: Option<string>, delimiter: char, headers: seq<string>) returns (data: seq<Entries<Value>>)
    ensures data == if file.None? then [] else TxtRecords(TextLines(file.value), delimiter, headers)
  {
    if file.None? {
      return [];
    }
    var lines := TextLines(file.value);
    data := [];
    var i := 0;
    while i < |lines|
      invariant 0 <= i <= |lines|
      invariant data == TxtRecords(lines[..i], delimiter, headers)
    {
      assert lines[..i + 1][..i] == lines[..i];
      var line := Strip(lines[i]);
      if line != [] {
        var item := LineRecord(line, delimiter, headers);
        data := data + [item];
      }
      i := i + 1;
    }
    assert lines[..i] == lines;
  }

  /** The body of `load_txt`'s loop for one non-blank line: the values zipped
      with the headers, or keyed `field_0`, `field_1`, ... by the inner loop. */
  method LineRecord(line: string, delimiter: char, headers: seq<string>) returns (item: Entries<Value>)
    ensures item == TxtRecord(line, delimiter, headers)
    ensures headers == [] ==> |item| == |Split(line, delimiter)|
  {
    var values := Split(line, delimiter);
    if headers != [] {
      return Zip(headers, values);
    }
    item := [];
    var j := 0;
    while j < |values|
      invariant 0 <= j <= |values| && |item| == j
      invariant forall k :: 0 <= k < j ==> item[k] == (FieldKey(k), VStr(values[k]))
    {
      item := item + [(FieldKey(j), VStr(values[j]))];
      j := j + 1;
    }
    assert item == seq(|values|, k requires 0 <= k < |values| => (FieldKey(k), VStr(values[k])));
  }

  /** A record of text values under distinct keys. */
  ghost predicate TextRecord(record: Entries<Value>) {
    UniqueKeys(record) && forall i :: 0 <= i < |record| ==> record[i].1.VStr?
  }

  /** Zipping the keys of a record of text values with the values' texts gives
      the record back. */
  lemma {:induction false} ZipRecord(record: Entries<Value>)
    requires TextRecord(record)
    ensures Zip(KeysOf(record), Texts(record)) == record
  {
    if record != [] {
      var n := |record| - 1;
      var init := record[..n];
      KeysOfPrefix(record, n);
      TextsPrefix(record, n);
      ZipRecord(init);
      assert forall i :: 0 <= i < n ==> init[i].0 != record[n].0;
      ZipStep(KeysOf(record), Texts(record), init, record[n].0, record[n].1);
      SnocSplit(record);
    }
  }

  lemma TextsPrefix(record: Entries<Value>, n: nat)
    requires n <= |record|
    ensures Texts(record)[..n] == Texts(record[..n])
  {
  }

  /** Zipping one more key that is new to the record appends its pair. */
  lemma ZipStep(keys: seq<string>, texts: seq<string>, init: Entries<Value>, k: string, v: Value)
    requires |keys| == |texts| > 0 && Zip(keys[..|keys| - 1], texts[..|texts| - 1]) == init
    requires keys[|keys| - 1] == k && v == VStr(texts[|texts| - 1])
    requires forall i :: 0 <= i < |init| ==> init[i].0 != k
    ensures Zip(keys, texts) == init + [(k, v)]
  {
    assert IndexOf(init, k) == |init|;
  }

  /** A record whose line `load_txt` reads back: text values under distinct
      keys, none holding the delimiter or a line end, and a non-empty line
      without surrounding whitespace. */
  ghost predicate TxtReadable(record: Entries<Value>, delimiter: char) {
    && TextRecord(record) && record != [] && delimiter != '\n' && delimiter != '\r'
    && (forall i :: 0 <= i < |record| ==>
          delimiter !in record[i].1.s && '\n' !in record[i].1.s && '\r' !in record[i].1.s)
    && TxtRecordLine(record, delimiter) != []
    && !IsSpace(TxtRecordLine(record, delimiter)[0])
    && !IsSpace(TxtRecordLine(record, delimiter)[|TxtRecordLine(record, delimiter)| - 1])
  }

  /** The line of a readable record strips to itself and is read back by
      `load_txt` with the record's keys as headers. */
  lemma TxtRecordRoundTrip(record: Entries<Value>, delimiter: char)
    requires TxtReadable(record, delimiter)
    ensures Strip(TxtRecordLine(record, delimiter)) == TxtRecordLine(record, delimiter)
    ensures TxtRecord(TxtRecordLine(record, delimiter), delimiter, KeysOf(record)) == record
  {
    StripUnchanged(TxtRecordLine(record, delimiter));
    SplitJoin(Texts(record), delimiter);
    ZipRecord(record);
  }

  /** The lines `save_txt` writes, one per record. */
  function TxtRecordLines(records: seq<Entries<Value>>, delimiter: char): (lines: seq<string>)
    ensures |lines| == |records|
  {
    seq(|records|, i requires 0 <= i < |records| => TxtRecordLine(records[i], delimiter))
  }

  /** No value of the record writes a line end. */
  ghost predicate LineFree(record: Entries<Value>) {
    forall i :: 0 <= i < |record| ==> '\n' !in Render(record[i].1) && '\r' !in Render(record[i].1)
  }

  /** Read back as a text file, what `save_txt` wrote is one line per record,
      in order, each its values' texts joined by the delimiter, followed by the
      empty piece after the last line end. */
  lemma SaveTxtLines(records: seq<Entries<Value>>, delimiter: char)
    requires records != [] && delimiter != '\n' && delimiter != '\r'
    requires forall i :: 0 <= i < |records| ==> LineFree(records[i])
    ensures SaveTxt(records, delimiter).Some?
    ensures TextLines(SaveTxt(records, delimiter).value) == TxtRecordLines(records, delimiter) + [""]
  {
    var lines := TxtRecordLines(records, delimiter);
    forall i | 0 <= i < |lines|
      ensures '\n' !in lines[i] && '\r' !in lines[i]
    {
      var texts := Texts(records[i]);
      assert forall k :: 0 <= k < |texts| ==> '\n' !in texts[k] && '\r' !in texts[k];
      NotInJoin(texts, delimiter, '\n');
      NotInJoin(texts, delimiter, '\r');
    }
    TextLinesOfJoin(lines);
  }

  /** `load_txt` with the records' keys as headers reads back exactly what
      `save_txt` wrote, when every record is readable and all share those keys. */
  lemma SaveTxtRoundTrip(records: seq<Entries<Value>>, delimiter: char)
    requires records != []
    requires forall i :: 0 <= i < |records| ==> TxtReadable(records[i], delimiter)
    requires forall i :: 0 <= i < |records| ==> KeysOf(records[i]) == KeysOf(records[0])
    ensures TxtRecords(TextLines(SaveTxt(records, delimiter).value), delimiter, KeysOf(records[0])) == records
  {
    forall i | 0 <= i < |records|
      ensures LineFree(records[i])
    {
      assert forall k :: 0 <= k < |records[i]| ==> Render(records[i][k].1) == records[i][k].1.s;
    }
    assert TxtReadable(records[0], delimiter);
    SaveTxtLines(records, delimiter);
    var lines := TxtRecordLines(records, delimiter);
    ReadSavedLines(records, delimiter, KeysOf(records[0]));
    assert (lines + [""])[..|lines|] == lines;
    assert Strip("") == "";
  }

  lemma {:induction false} ReadSavedLines(records: seq<Entries<Value>>, delimiter: char, keys: seq<string>)
    requires forall i :: 0 <= i < |records| ==> TxtReadable(records[i], delimiter) && KeysOf(records[i]) == keys
    ensures TxtRecords(TxtRecordLines(records, delimiter), delimiter, keys) == records
  {
    if records != [] {
      var n := |records| - 1;
      ReadSavedLines(records[..n], delimiter, keys);
      assert TxtRecordLines(records, delimiter)[..n] == TxtRecordLines(records[..n], delimiter);
      TxtRecordRoundTrip(records[n], delimiter);
      SnocSplit(records);
    }
  }

  // ---------------------------------------------------------------------------
  // JSON envelope

  /** The document `save_json` writes: the data under `data`, and metadata with
      the creation time, format `json` and version `1.0`. */
  function SaveJson(data: Value, now: string): (doc: Value)
    ensures doc.VDict? && Lookup(doc.entries, "data") == Some(data)
    ensures Lookup(doc.entries, "metadata") ==
      Some(VDict([("created_at", VStr(now)), ("format", VStr("json")), ("version", VStr("1.0"))]))
  {
    var meta := VDict([("created_at", VStr(now)), ("format", VStr("json")), ("version", VStr("1.0"))]);
    LookupAt([("data", data), ("metadata", meta)], "data", 0);
    LookupAt([("data", data), ("metadata", meta)], "metadata", 1);
    VDict([("data", data), ("metadata", meta)])
  }

  /** `load_json`: None for a missing or malformed file or a document that is
      not a dictionary; otherwise its `data` member, `{}` when absent. A `null`
      member is Python's None, the same result as a failed load. */
  function LoadJson(file: JsonFile): (r: Option<Value>)
    ensures r.Some? <==> file.Parsed? && file.doc.VDict? && Lookup(file.doc.entries, "data") != Some(VNone)
    ensures r.Some? ==> r.value != VNone
    ensures r.Some? && !HasKey(file.doc.entries, "data") ==> r.value == VDict([])
    ensures r.Some? && HasKey(file.doc.entries, "data") ==> r == Lookup(file.doc.entries, "data")
  {
    match file
    case Parsed(doc) =>
      if !doc.VDict? then None
      else
        var data := GetOr(doc.entries, "data", VDict([]));
        if data.VNone? then None else Some(data)
    case _ => None
  }

  /** `load_json` returns what `save_json` saved, unless that was None. */
  lemma JsonEnvelopeRoundTrip(data: Value, now: string)
    requires data != VNone
    ensures LoadJson(Parsed(SaveJson(data, now))) == Some(data)
  {
  }

  /** Saved None data loads as None, like a file that failed to load. */
  lemma JsonNullData(now: string)
    ensures LoadJson(Parsed(SaveJson(VNone, now))) == None
  {
  }

  // ---------------------------------------------------------------------------
  // SQLite shaping

  /** One table `save_sqlite` writes: its columns are the keys of the first row,
      and each row gives `str(row.get(col, ''))` for every column. */
  datatype Table = Table(name: string, columns: seq<string>, rows: seq<seq<string>>)

  function SqliteCell(row: Entries<Value>, column: string): string {
    Render(GetOr(row, column, VStr("")))
  }

  /** The rows of one table; None when an element is not a dictionary
      (`row.get` raises). */
  function TableRows(columns: seq<string>, items: seq<Value>): (r: Option<seq<seq<string>>>)
    ensures r.Some? ==> |r.value| == |items| && forall k :: 0 <= k < |items| ==> |r.value[k]| == |columns|
    ensures r.Some? <==> forall k :: 0 <= k < |items| ==> items[k].VDict?
  {
    if exists k :: 0 <= k < |items| && !items[k].VDict? then None
    else Some(seq(|items|, k requires 0 <= k < |items| =>
      seq(|columns|, c requires 0 <= c < |columns| => SqliteCell(items[k].entries, columns[c]))))
  }

  /** The tables `save_sqlite` writes, skipping falsy table data; None when the
      data of a table is truthy but not a list whose first element is a non-empty
      dictionary (an empty one gives `CREATE TABLE t ()`, which SQLite rejects),
      or one of its rows is not a dictionary. */
  function SqliteSpec(tables: Entries<Value>): Option<seq<Table>> {
    if tables == [] then Some([])
    else
      match SqliteSpec(tables[..|tables| - 1])
      case None => None
      case Some(done) =>
        var (name, tableData) := tables[|tables| - 1];
        if !Truthy(tableData) then Some(done)
        else if !tableData.VList? || !tableData.items[0].VDict? || tableData.items[0].entries == [] then None
        else
          var columns := KeysOf(tableData.items[0].entries);
          match TableRows(columns, tableData.items)
          case None => None
          case Some(rows) => Some(done + [Table(name, columns, rows)])
  }

  /** The loop of `save_sqlite` over the rows of one table. */
  method TableRowsLoop(columns: seq<string>, items: seq<Value>) returns (r: Option<seq<seq<string>>>)
    ensures r == TableRows(columns, items)
  {
    var rows: seq<seq<string>> := [];
    var k := 0;
    while k < |items|
      invariant 0 <= k <= |items| && |rows| == k
      invariant forall m :: 0 <= m < k ==> items[m].VDict?
      invariant forall m :: 0 <= m < k ==>
        rows[m] == seq(|columns|, c requires 0 <= c < |columns| => SqliteCell(items[m].entries, columns[c]))
    {
      var row := items[k];
      if !row.VDict? {
        return None;
      }
      rows := rows + [seq(|columns|, c requires 0 <= c < |columns| => SqliteCell(row.entries, columns[c]))];
      k := k + 1;
    }
    assert !exists m :: 0 <= m < |items| && !items[m].VDict?;
    assert rows == seq(|items|, m requires 0 <= m < |items| =>
      seq(|columns|, c requires 0 <= c < |columns| => SqliteCell(items[m].entries, columns[c])));
    return Some(rows);
  }

  /** `save_sqlite`, as its loop over tables and rows. */
  method SaveSqlite(tables: Entries<Value>) returns (r: Option<seq<Table>>)
    ensures r == SqliteSpec(tables)
  {
    var done: seq<Table> := [];
    var i := 0;
    while i < |tables|
      invariant 0 <= i <= |tables|
      invariant SqliteSpec(tables[..i]) == Some(done)
    {
      assert tables[..i + 1][..i] == tables[..i];
      var (name, tableData) := tables[i];
      if Truthy(tableData) {
        if !tableData.VList? || !tableData.items[0].VDict? || tableData.items[0].entries == [] {
          SqliteStopsAtError(tables, i + 1);
          return None;
        }
        var columns := KeysOf(tableData.items[0].entries);
        var rows := TableRowsLoop(columns, tableData.items);
        if rows.None? {
          SqliteStopsAtError(tables, i + 1);
          return None;
        }
        done := done + [Table(name, columns, rows.value)];
      }
      i := i + 1;
    }
    assert tables[..i] == tables;
    return Some(done);
  }

  lemma {:induction false} SqliteStopsAtError(tables: Entries<Value>, i: nat)
    requires i <= |tables| && SqliteSpec(tables[..i]).None?
    ensures SqliteSpec(tables).None?
    decreases |tables| - i
  {
    if i < |tables| {
      assert tables[..i + 1][..i] == tables[..i];
      SqliteStopsAtError(tables, i + 1);
    } else {
      assert tables[..i] == tables;
    }
  }

  /** Every row of every table written has one cell per column, and the columns
      are the first row's keys. */
  /** A table whose data is a list starting with `{}` makes `save_sqlite` fail,
      whatever the other tables hold: `CREATE TABLE t ()` is not valid SQL. */
  lemma SqliteNoColumns(tables: Entries<Value>, k: nat)
    requires k < |tables| && tables[k].1.VList? && tables[k].1.items != []
    requires tables[k].1.items[0] == VDict([])
    ensures SqliteSpec(tables).None?
  {
    assert tables[..k + 1][..k] == tables[..k];
    assert tables[..k + 1][k] == tables[k];
    SqliteStopsAtError(tables, k + 1);
  }

  lemma {:induction false} SqliteShape(tables: Entries<Value>)
    requires SqliteSpec(tables).Some?
    ensures forall t :: t in SqliteSpec(tables).value ==> forall row :: row in t.rows ==> |row| == |t.columns|
    ensures forall t :: t in SqliteSpec(tables).value ==> t.columns != [] && t.rows != []
  {
    if tables != [] {
      SqliteShape(tables[..|tables| - 1]);
    }
  }

  // ---------------------------------------------------------------------------
  // Format conversion

  /** What the source files hold. YAML and SQLite reading are library calls:
      their results are given. */
  datatype Sources = Sources(
    json: JsonFile,
    csv: Option<seq<seq<string>>>,
    txt: Option<string>,
    yaml: Option<Value>,
    sqlite: Value)

  /** The data `convert_format` loads: None for an unsupported source format,
      Some(None) when the loader found nothing. */
  function LoadSource(format: string, sources: Sources): (r: Option<Option<Value>>)
    ensures r.None? <==> format !in ["json", "csv", "txt", "yaml", "sqlite"]
    ensures format == "csv" || format == "txt" ==>
      r.Some? && r.value.Some? && r.value.value.VList? &&
      forall i :: 0 <= i < |r.value.value.items| ==> r.value.value.items[i].VDict?
  {
    if format == "json" then Some(LoadJson(sources.json))
    else if format == "csv" then
      var records := LoadCsvSpec(sources.csv);
      Some(Some(VList(seq(|records|, i requires 0 <= i < |records| => VDict(records[i])))))
    else if format == "txt" then
      var records := if sources.txt.None? then [] else TxtRecords(TextLines(sources.txt.value), '|', []);
      Some(Some(VList(seq(|records|, i requires 0 <= i < |records| => VDict(records[i])))))
    else if format == "yaml" then Some(sources.yaml)
    else if format == "sqlite" then Some(Some(sources.sqlite))
    else None
  }

  /** What a conversion writes. */
  datatype Written =
    | WroteJson(doc: Value)
    | WroteCsv(table: CsvTable)
    | WroteTxt(text: string)
    | WroteYaml(data: Value)
    | WroteSqlite(tables: seq<Table>)

  /** How many leading elements are dictionaries: the records `save_txt` writes
      before `item.values()` raises on the first element that is not one. */
  function DictPrefix(items: seq<Value>): (n: nat)
    ensures n <= |items|
    ensures forall i :: 0 <= i < n ==> items[i].VDict?
    ensures n < |items| ==> !items[n].VDict?
  {
    if items == [] || !items[0].VDict? then 0 else 1 + DictPrefix(items[1..])
  }

  /** Save `data` in the target format: the result and what was written. Lists
      go to csv and txt as they are, anything else as a one-element list;
      dictionaries go to sqlite as they are, anything else under `data`. The
      txt file is opened before the records are written, so an element that
      is not a dictionary leaves the lines of the records before it. */
  function SaveTarget(format: string, data: Value, now: string): (r: (bool, Option<Written>))
    ensures r.0 ==> r.1.Some?
    ensures format !in ["json", "csv", "txt", "yaml", "sqlite"] ==> r == (false, None)
    ensures format == "json" || format == "yaml" ==> r.0
    ensures format == "txt" ==>
      (r.0 <==> if data.VList? then data.items != [] && forall i :: 0 <= i < |data.items| ==> data.items[i].VDict?
                else data.VDict?)
  {
    if format == "json" then (true, Some(WroteJson(SaveJson(data, now))))
    else if format == "csv" then
      match SaveCsv(if data.VList? then data.items else [data])
      case None => (false, None)
      case Some(t) => (true, Some(WroteCsv(t)))
    else if format == "txt" then
      var items := if data.VList? then data.items else [data];
      var n := DictPrefix(items);
      var records := seq(n, i requires 0 <= i < n => items[i].entries);
      if items == [] then (false, None)
      else if n == |items| then (true, Some(WroteTxt(SaveTxt(records, '|').value)))
      else (false, Some(WroteTxt(if records == [] then "" else SaveTxt(records, '|').value)))
    else if format == "yaml" then (true, Some(WroteYaml(data)))
    else if format == "sqlite" then
      var tables := if data.VDict? then data.entries else [("data", data)];
      match SqliteSpec(tables)
      case None => (false, None)
      case Some(ts) => (true, Some(WroteSqlite(ts)))
    else (false, None)
  }

  /** `convert_format`: returns false without writing anything when the source
      format is unsupported or nothing was loaded; otherwise saves the data in
      the target format. */
  function ConvertFormat(sourceFormat: string, targetFormat: string, sources: Sources, now: string)
    : (r: (bool, Option<Written>))
    ensures r.0 ==> r.1.Some?
    ensures LoadSource(sourceFormat, sources).None? ==> r == (false, None)
    ensures LoadSource(sourceFormat, sources) == Some(None) ==> r == (false, None)
    ensures LoadSource(sourceFormat, sources) == Some(Some(VNone)) ==> r == (false, None)
  {
    match LoadSource(sourceFormat, sources)
    case None => (false, None)
    case Some(None) => (false, None)
    case Some(Some(data)) => if data.VNone? then (false, None) else SaveTarget(targetFormat, data, now)
  }

  /** Converting to txt a list whose element `k` is the first that is not a
      dictionary fails, but the target file already holds the lines of the
      `k` records before it (and is empty when `k` is 0). */
  lemma TxtTargetPartialWrite(items: seq<Value>, k: nat, now: string)
    requires k < |items| && !items[k].VDict?
    requires forall i :: 0 <= i < k ==> items[i].VDict?
    ensures SaveTarget("txt", VList(items), now).0 == false
    ensures k == 0 ==> SaveTarget("txt", VList(items), now).1 == Some(WroteTxt(""))
    ensures k > 0 ==> SaveTarget("txt", VList(items), now).1
                      == Some(WroteTxt(SaveTxt(seq(k, i requires 0 <= i < k => items[i].entries), '|').value))
  {
    DictPrefixIs(items, k);
  }

  lemma {:induction false} DictPrefixIs(items: seq<Value>, k: nat)
    requires k < |items| && !items[k].VDict?
    requires forall i :: 0 <= i < k ==> items[i].VDict?
    ensures DictPrefix(items) == k
  {
    if k > 0 {
      DictPrefixIs(items[1..], k - 1);
    }
  }

  /** A JSON source whose `data` is `null` is not converted: nothing is written. */
  lemma NullJsonDataNotConverted(targetFormat: string, sources: Sources, now: string)
    requires sources.json == Parsed(VDict([("data", VNone)]))
    ensures ConvertFormat("json", targetFormat, sources, now) == (false, None)
  {
    assert Lookup([("data", VNone)], "data") == Some(VNone);
  }

  /** Converting JSON to JSON keeps the data: loading the written envelope gives
      what loading the source gave. */
  lemma JsonToJsonKeepsData(sources: Sources, now: string)
    requires LoadJson(sources.json).Some?
    ensures ConvertFormat("json", "json", sources, now).1.Some?
    ensures LoadJson(Parsed(ConvertFormat("json", "json", sources, now).1.value.doc)) == LoadJson(sources.json)
  {
  }

  /** A single dictionary sent to csv is written as a one-row table. */
  lemma CsvWrapsSingleRecord(data: Value)
    requires data.VDict?
    ensures SaveTarget("csv", data, "").1.Some?
    ensures |SaveTarget("csv", data, "").1.value.table.rows| == 1
  {
  }
}
