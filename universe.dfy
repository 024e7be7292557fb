/**
 * utils/build_nifty250_universe.py: the symbol list read from the index CSV
 * and its mapping to broker instrument keys. CSV rows and instrument records
 * are string dictionaries; the file reads are not modelled.
 */
module Universe {
  import opened Wrappers
  import opened Series

  type Row = map<string, string>

  /** `d.get(key, "")`: a missing field reads as the empty, falsy string. */
  function Field(d: Row, key: string): (v: string)
    ensures key !in d ==> v == ""
  {
    if key in d then d[key] else ""
  }

  // ---------------------------------------------------------------- strip and upper

  /** Characters Python's `str.strip()` removes, within ASCII. */
  predicate IsSpace(c: char) {
    c == ' ' || 9 <= c as int <= 13 || 28 <= c as int <= 31
  }

  function TrimFront(s: string): (r: string)
    ensures |r| <= |s| && r == s[|s| - |r|..]
    ensures r == [] || !IsSpace(r[0])
    ensures forall i :: 0 <= i < |s| - |r| ==> IsSpace(s[i])
  {
    if s == [] || !IsSpace(s[0]) then s else TrimFront(s[1..])
  }

  function TrimBack(s: string): (r: string)
    ensures |r| <= |s| && r == s[..|r|]
    ensures r == [] || !IsSpace(r[|r| - 1])
    ensures forall i :: |r| <= i < |s| ==> IsSpace(s[i])
  {
    if s == [] || !IsSpace(s[|s| - 1]) then s else TrimBack(s[..|s| - 1])
  }

  /** `str.strip()`: surrounding whitespace removed, nothing else touched. */
  function Strip(s: string): (r: string)
    ensures r == [] || (!IsSpace(r[0]) && !IsSpace(r[|r| - 1]))
    ensures |r| <= |s|
  {
    TrimBack(TrimFront(s))
  }

  function UpperChar(c: char): (u: char)
    ensures !('a' <= u <= 'z')
    ensures IsSpace(u) == IsSpace(c)
  {
    if 'a' <= c <= 'z' then (c as int - 'a' as int + 'A' as int) as char else c
  }

  /** `str.upper()`, within ASCII. */
  function Upper(s: string): (r: string)
    ensures |r| == |s|
    ensures forall i :: 0 <= i < |s| ==> r[i] == UpperChar(s[i])
  {
    seq(|s|, i requires 0 <= i < |s| => UpperChar(s[i]))
  }

  lemma UpperIdempotent(s: string)
    ensures Upper(Upper(s)) == Upper(s)
  {
    assert forall i :: 0 <= i < |s| ==> UpperChar(UpperChar(s[i])) == UpperChar(s[i]);
  }

  /** A symbol as the CSV reader stores it: no surrounding whitespace and no lower-case letter. */
  predicate Normalised(s: string) {
    (s == [] || (!IsSpace(s[0]) && !IsSpace(s[|s| - 1])))
    && forall i :: 0 <= i < |s| ==> !('a' <= s[i] <= 'z')
  }

  // ---------------------------------------------------------------- read_nifty250_symbols

  /** `row.get("Symbol") or row.get("SYMBOL") or row.get("symbol")`: the first non-empty of the three. */
  function RowSymbol(row: Row): (r: Option<string>)
    ensures r.Some? ==> r.value != []
    ensures r.None? <==> Field(row, "Symbol") == [] && Field(row, "SYMBOL") == [] && Field(row, "symbol") == []
    ensures r.Some? ==> r.value == Field(row, "Symbol") || r.value == Field(row, "SYMBOL") || r.value == Field(row, "symbol")
    ensures Field(row, "Symbol") != [] ==> r == Some(Field(row, "Symbol"))
  {
    if Field(row, "Symbol") != [] then Some(Field(row, "Symbol"))
    else if Field(row, "SYMBOL") != [] then Some(Field(row, "SYMBOL"))
    else if Field(row, "symbol") != [] then Some(Field(row, "symbol"))
    else None
  }

  /** The symbols of the rows read so far, one per row that has a symbol, stripped and upper-cased. */
  function Nifty250Symbols(rows: seq<Row>): (symbols: seq<string>)
    ensures |symbols| <= |rows|
    decreases |rows|
  {
    if rows == [] then []
    else
      var earlier := Nifty250Symbols(rows[..|rows| - 1]);
      match RowSymbol(rows[|rows| - 1])
      case None => earlier
      case Some(symbol) => earlier + [Upper(Strip(symbol))]
  }

  /** The loop of `read_nifty250_symbols` over the rows of the CSV file. */
  method ReadNifty250Symbols(rows: seq<Row>) returns (symbols: seq<string>)
    ensures symbols == Nifty250Symbols(rows)
  {
    symbols := [];
    for i := 0 to |rows|
      invariant symbols == Nifty250Symbols(rows[..i])
    {
      assert rows[..i + 1][..i] == rows[..i];
      var symbol := RowSymbol(rows[i]);
      if symbol.Some? {
        symbols := symbols + [Upper(Strip(symbol.value))];
      }
    }
    assert rows[..|rows|] == rows;
  }

  lemma NormalisedUpperStrip(s: string)
    ensures Normalised(Upper(Strip(s)))
  {
    var t := Strip(s);
    var u := Upper(t);
    if u != [] {
      assert !IsSpace(t[0]) && !IsSpace(t[|t| - 1]);
      assert u[0] == UpperChar(t[0]) && u[|u| - 1] == UpperChar(t[|t| - 1]);
      assert !IsSpace(u[0]) && !IsSpace(u[|u| - 1]);
    }
    assert forall i :: 0 <= i < |u| ==> u[i] == UpperChar(t[i]) && !('a' <= u[i] <= 'z');
  }

  /** Every stored symbol is normalised, and one row gives at most one symbol. */
  lemma {:induction false} SymbolsNormalised(rows: seq<Row>)
    ensures forall i :: 0 <= i < |Nifty250Symbols(rows)| ==> Normalised(Nifty250Symbols(rows)[i])
    decreases |rows|
  {
    if rows != [] {
      SymbolsNormalised(rows[..|rows| - 1]);
      var symbol := RowSymbol(rows[|rows| - 1]);
      if symbol.Some? {
        NormalisedUpperStrip(symbol.value);
      }
    }
  }

  /** Appending a row adds its symbol exactly when the row has one. */
  lemma SymbolsOfAppendedRow(rows: seq<Row>, row: Row)
    ensures RowSymbol(row).None? ==> Nifty250Symbols(rows + [row]) == Nifty250Symbols(rows)
    ensures RowSymbol(row).Some? ==>
      Nifty250Symbols(rows + [row]) == Nifty250Symbols(rows) + [Upper(Strip(RowSymbol(row).value))]
  {
    assert (rows + [row])[..|rows|] == rows;
  }

  // ---------------------------------------------------------------- map_to_instrument_keys

  /** An NSE equity whose upper-cased trading symbol is wanted and whose key is non-empty. */
  predicate Selected(inst: Row, symbolSet: set<string>) {
    Upper(Field(inst, "trading_symbol")) in symbolSet
    && Field(inst, "segment") == "NSE_EQ"
    && Field(inst, "instrument_key") != []
  }

  /** The keys gathered from the instruments seen so far, first occurrence kept. */
  function InstrumentKeys(symbolSet: set<string>, instruments: seq<Row>): (keys: seq<string>)
    decreases |instruments|
  {
    if instruments == [] then []
    else
      var earlier := InstrumentKeys(symbolSet, instruments[..|instruments| - 1]);
      var inst := instruments[|instruments| - 1];
      if Selected(inst, symbolSet) && Field(inst, "instrument_key") !in earlier
      then earlier + [Field(inst, "instrument_key")]
      else earlier
  }

  /** The loop of `map_to_instrument_keys`, with its `key not in keys` check. */
  method MapToInstrumentKeys(symbols: seq<string>, instruments: seq<Row>) returns (keys: seq<string>)
    ensures keys == InstrumentKeys((set s | s in symbols), instruments)
  {
    keys := [];
    var symbolSet := set s | s in symbols;
    for i := 0 to |instruments|
      invariant keys == InstrumentKeys(symbolSet, instruments[..i])
    {
      assert instruments[..i + 1][..i] == instruments[..i];
      var inst := instruments[i];
      var instSymbol := Upper(Field(inst, "trading_symbol"));
      var segment := Field(inst, "segment");
      if instSymbol in symbolSet && segment == "NSE_EQ" {
        var key := Field(inst, "instrument_key");
        if key != [] && key !in keys {
          keys := keys + [key];
        }
      }
    }
    assert instruments[..|instruments|] == instruments;
  }

  /** No key is output twice. */
  lemma {:induction false} KeysDistinct(symbolSet: set<string>, instruments: seq<Row>)
    ensures Distinct(InstrumentKeys(symbolSet, instruments))
    decreases |instruments|
  {
    if instruments != [] {
      KeysDistinct(symbolSet, instruments[..|instruments| - 1]);
    }
  }

  /** Instrument `a` is selected and carries `key`. */
  predicate CarriesKey(symbolSet: set<string>, instruments: seq<Row>, a: int, key: string) {
    0 <= a < |instruments| && Selected(instruments[a], symbolSet)
    && Field(instruments[a], "instrument_key") == key
  }

  /**
   * A key is output exactly when some selected instrument carries it: every
   * output key comes from a wanted NSE equity, and every wanted NSE equity
   * with a non-empty key has its key in the output.
   */
  lemma {:induction false} KeysSoundAndComplete(symbolSet: set<string>, instruments: seq<Row>, key: string)
    ensures key in InstrumentKeys(symbolSet, instruments) <==>
      exists a :: CarriesKey(symbolSet, instruments, a, key)
    decreases |instruments|
  {
    if instruments != [] {
      var init := instruments[..|instruments| - 1];
      KeysSoundAndComplete(symbolSet, init, key);
      if exists a :: CarriesKey(symbolSet, init, a, key) {
        var a :| CarriesKey(symbolSet, init, a, key);
        assert instruments[a] == init[a];
        assert CarriesKey(symbolSet, instruments, a, key);
      }
      if exists a :: CarriesKey(symbolSet, instruments, a, key) {
        var a :| CarriesKey(symbolSet, instruments, a, key);
        if a < |init| {
          assert init[a] == instruments[a];
          assert CarriesKey(symbolSet, init, a, key);
        }
      }
      if key in InstrumentKeys(symbolSet, instruments) && key !in InstrumentKeys(symbolSet, init) {
        assert CarriesKey(symbolSet, instruments, |init|, key);
      }
    }
  }

  /**
   * The index of the first selected instrument carrying `key`, or
   * |instruments| when there is none.
   */
  function FirstIndex(symbolSet: set<string>, instruments: seq<Row>, key: string): (a: nat)
    ensures a <= |instruments|
    ensures a < |instruments| ==>
      Selected(instruments[a], symbolSet) && Field(instruments[a], "instrument_key") == key
    ensures forall b :: 0 <= b < a && b < |instruments| ==>
      !(Selected(instruments[b], symbolSet) && Field(instruments[b], "instrument_key") == key)
    decreases |instruments|
  {
    if instruments == [] then 0
    else
      var init := instruments[..|instruments| - 1];
      var earlier := FirstIndex(symbolSet, init, key);
      var last := instruments[|instruments| - 1];
      if earlier < |init| then earlier
      else if Selected(last, symbolSet) && Field(last, "instrument_key") == key then |init|
      else |instruments|
  }

  /** A key already output keeps its first index when an instrument is appended. */
  lemma FirstIndexOfEarlierKey(symbolSet: set<string>, instruments: seq<Row>, k: string)
    requires instruments != []
    requires k in InstrumentKeys(symbolSet, instruments[..|instruments| - 1])
    ensures FirstIndex(symbolSet, instruments, k)
         == FirstIndex(symbolSet, instruments[..|instruments| - 1], k) < |instruments| - 1
  {
    var init := instruments[..|instruments| - 1];
    KeysSoundAndComplete(symbolSet, init, k);
    var a :| CarriesKey(symbolSet, init, a, k);
  }

  /** A key output for the appended instrument first occurs there. */
  lemma FirstIndexOfNewKey(symbolSet: set<string>, instruments: seq<Row>, k: string)
    requires instruments != []
    requires k !in InstrumentKeys(symbolSet, instruments[..|instruments| - 1])
    requires k in InstrumentKeys(symbolSet, instruments)
    ensures FirstIndex(symbolSet, instruments, k) == |instruments| - 1
  {
    var init := instruments[..|instruments| - 1];
    KeysSoundAndComplete(symbolSet, init, k);
    var first := FirstIndex(symbolSet, init, k);
    if first < |init| {
      assert CarriesKey(symbolSet, init, first, k);
    }
  }

  /** Keys are output in the order in which their first selected instrument appears. */
  lemma {:induction false} KeysInFirstOccurrenceOrder(symbolSet: set<string>, instruments: seq<Row>)
    ensures var keys := InstrumentKeys(symbolSet, instruments);
      forall i, j :: 0 <= i < j < |keys| ==>
        FirstIndex(symbolSet, instruments, keys[i]) < FirstIndex(symbolSet, instruments, keys[j]) < |instruments|
    decreases |instruments|
  {
    var keys := InstrumentKeys(symbolSet, instruments);
    if instruments != [] {
      var init := instruments[..|instruments| - 1];
      var earlier := InstrumentKeys(symbolSet, init);
      KeysInFirstOccurrenceOrder(symbolSet, init);
      assert keys[..|earlier|] == earlier;
      forall i, j | 0 <= i < j < |keys|
        ensures FirstIndex(symbolSet, instruments, keys[i]) < FirstIndex(symbolSet, instruments, keys[j]) < |instruments|
      {
        assert keys[i] == earlier[i];
        FirstIndexOfEarlierKey(symbolSet, instruments, keys[i]);
        if j < |earlier| {
          assert keys[j] == earlier[j];
          FirstIndexOfEarlierKey(symbolSet, instruments, keys[j]);
        } else {
          FirstIndexOfNewKey(symbolSet, instruments, keys[j]);
        }
      }
    }
  }
}
