/** The copy-descriptor frame of `local_restore_shapes.py`.

A frame is a table of `rows` by fifteen unsigned 64-bit cells.  It is written column by column as maximal runs, each run
as two canonical unsigned LEB128 integers (section 7.6 of DWARF Version 5), and the bytes are carried as Base64.
*/
module CopyCodec {
  import opened Wrappers
  import opened Base64

  const COPY_FIELDS: seq<string> := [
    "device", "host", "host_device", "size", "device_allocation", "host_registration", "registered_device_start",
    "registered_device_bytes", "destination_offset", "arena_id", "arena_bytes", "source_allocation_id",
    "source_allocation_offset", "source_allocation_bytes", "source_offset"]
  const FIELDS: nat := |COPY_FIELDS|
  const MAX_ROWS := 65536
  const U64 := 0x1_0000_0000_0000_0000

  // ---------- Integers ----------

  function Uvarint(v: nat): (r: seq<Byte>)
    ensures |r| >= 1
  {
    if v < 128 then [v] else [v % 128 + 128] + Uvarint(v / 128)
  }

  datatype Read<+T> = Read(value: T, next: nat)

  /* The decoding loop from digit `digit` on, as a function; `value` counts from that digit. */
  function DecodeFrom(data: seq<Byte>, cursor: nat, digit: nat): (r: Option<Read<nat>>)
    requires cursor <= |data| && digit <= 10
    ensures r.Some? ==> cursor < r.value.next <= |data|
    decreases |data| - cursor
  {
    if digit == 10 || cursor == |data| then None
    else
      var byte := data[cursor];
      if digit == 9 && byte > 1 then None
      else if byte < 128 then
        if digit != 0 && byte == 0 then None else Some(Read(byte, cursor + 1))
      else
        var rest := DecodeFrom(data, cursor + 1, digit + 1);
        if rest.None? then None else Some(Read(byte % 128 + 128 * rest.value.value, rest.value.next))
  }

  function Integer(data: seq<Byte>, cursor: nat): (r: Option<Read<nat>>)
    requires cursor <= |data|
    ensures r.Some? ==> cursor < r.value.next <= |data|
  {
    DecodeFrom(data, cursor, 0)
  }

  function Power(digit: nat): (p: nat)
    ensures p > 0
  {
    if digit == 0 then 1 else 128 * Power(digit - 1)
  }

  /* What the digits from `digit` on can hold within 64 bits. */
  function Limit(digit: nat): (p: nat)
    requires digit <= 9
    decreases 9 - digit
  {
    if digit == 9 then 2 else 128 * Limit(digit + 1)
  }

  /* A reading of the remaining digits, placed above those already accumulated. */
  function Above(value: nat, scale: nat, rest: Option<Read<nat>>): Option<Read<nat>> {
    if rest.None? then None else Some(Read(value + scale * rest.value.value, rest.value.next))
  }

  /* The byte loop.  The source accumulates with bitwise or; the seven-bit groups are disjoint, so that is addition. */
  method DecodeInteger(data: seq<Byte>, cursor: nat) returns (r: Option<Read<nat>>)
    requires cursor <= |data|
    ensures r == Integer(data, cursor)
  {
    var value: nat, scale: nat, at: nat := 0, 1, cursor;
    for digit := 0 to 10
      invariant cursor <= at <= |data|
      invariant Integer(data, cursor) == Above(value, scale, DecodeFrom(data, at, digit))
    {
      if at == |data| {
        return None;
      }
      var byte := data[at];
      at := at + 1;
      if digit == 9 && byte > 1 {
        return None;
      }
      if byte < 128 {
        if digit != 0 && byte == 0 {
          return None;
        }
        return Above(value, scale, Some(Read(byte, at)));
      }
      DigitStep(data, at - 1, digit, value, scale);
      var low := byte % 128;
      value := value + scale * low;
      scale := scale * 128;
    }
    return None;
  }

  lemma DigitStep(data: seq<Byte>, at: nat, digit: nat, value: nat, scale: nat)
    requires at < |data| && digit < 9 && data[at] >= 128
    ensures Above(value, scale, DecodeFrom(data, at, digit))
         == Above(value + scale * (data[at] % 128), scale * 128, DecodeFrom(data, at + 1, digit + 1))
  {
    var rest := DecodeFrom(data, at + 1, digit + 1);
    if rest.Some? {
      Horner(value, scale, data[at] % 128, rest.value.value);
    }
  }

  lemma Horner(value: int, scale: int, low: int, high: int)
    ensures value + scale * (low + 128 * high) == (value + scale * low) + (scale * 128) * high
  {
  }

  lemma {:induction false} IntegerSound(data: seq<Byte>, cursor: nat, digit: nat)
    requires cursor <= |data| && digit <= 9 && DecodeFrom(data, cursor, digit).Some?
    ensures var r := DecodeFrom(data, cursor, digit).value;
            && data[cursor..r.next] == Uvarint(r.value)
            && r.value < Limit(digit)
            && (digit > 0 ==> r.value > 0)
    decreases 9 - digit
  {
    if data[cursor] >= 128 {
      IntegerSound(data, cursor + 1, digit + 1);
      var r := DecodeFrom(data, cursor, digit).value;
      var high := DecodeFrom(data, cursor + 1, digit + 1).value;
      assert r.value % 128 == data[cursor] % 128 && r.value / 128 == high.value;
      assert data[cursor..r.next] == [data[cursor]] + data[cursor + 1..r.next];
    } else {
      LimitLarge(digit);
    }
  }

  lemma {:induction false} LimitLarge(digit: nat)
    requires digit <= 9
    ensures digit < 9 ==> Limit(digit) >= 128
    ensures Limit(digit) >= 2
    decreases 9 - digit
  {
    if digit < 9 { LimitLarge(digit + 1); }
  }

  lemma {:induction false} IntegerComplete(data: seq<Byte>, cursor: nat, digit: nat, v: nat)
    requires digit <= 9 && v < Limit(digit) && (digit > 0 ==> v > 0)
    requires cursor + |Uvarint(v)| <= |data| && data[cursor..cursor + |Uvarint(v)|] == Uvarint(v)
    ensures DecodeFrom(data, cursor, digit) == Some(Read(v, cursor + |Uvarint(v)|))
    decreases 9 - digit
  {
    var e := Uvarint(v);
    assert data[cursor] == data[cursor..cursor + |e|][0] == e[0];
    if v >= 128 {
      var tail := Uvarint(v / 128);
      assert data[cursor + 1..cursor + |e|] == data[cursor..cursor + |e|][1..] == tail;
      assert cursor + 1 + |tail| == cursor + |e|;
      IntegerComplete(data, cursor + 1, digit + 1, v / 128);
    }
  }

  lemma LimitIsU64()
    ensures Limit(0) == U64
  {
    assert Limit(9) == 2;
    assert Limit(8) == 0x100;
    assert Limit(7) == 0x8000;
    assert Limit(6) == 0x40_0000;
    assert Limit(5) == 0x2000_0000;
    assert Limit(4) == 0x10_0000_0000;
    assert Limit(3) == 0x800_0000_0000;
    assert Limit(2) == 0x4_0000_0000_0000;
    assert Limit(1) == 0x200_0000_0000_0000;
  }

  /* Reading succeeds exactly on the canonical encoding of a 64-bit value, and consumes exactly that. */
  lemma IntegerExact(data: seq<Byte>, cursor: nat, v: nat, next: nat)
    requires cursor <= |data|
    ensures Integer(data, cursor) == Some(Read(v, next))
       <==> v < U64 && cursor <= next <= |data| && data[cursor..next] == Uvarint(v)
  {
    LimitIsU64();
    if Integer(data, cursor) == Some(Read(v, next)) {
      IntegerSound(data, cursor, 0);
    }
    if v < U64 && cursor <= next <= |data| && data[cursor..next] == Uvarint(v) {
      assert next == cursor + |Uvarint(v)|;
      IntegerComplete(data, cursor, 0, v);
    }
  }

  // ---------- Columns ----------

  /* The length of the maximal run of equal cells at the head of a column. */
  function Run(col: seq<nat>): (n: nat)
    requires col != []
    ensures 1 <= n <= |col|
    ensures forall i :: 0 <= i < n ==> col[i] == col[0]
    ensures n < |col| ==> col[n] != col[0]
  {
    if |col| == 1 || col[1] != col[0] then 1
    else
      var rest := Run(col[1..]);
      assert forall i :: 1 <= i < |col| ==> col[i] == col[1..][i - 1];
      1 + rest
  }

  lemma RunUnique(col: seq<nat>, n: nat)
    requires 1 <= n <= |col| && (forall i :: 0 <= i < n ==> col[i] == col[0])
    requires n < |col| ==> col[n] != col[0]
    ensures Run(col) == n
  {
  }

  function Column(col: seq<nat>): (r: seq<Byte>)
    decreases |col|
  {
    if col == [] then [] else Uvarint(Run(col)) + Uvarint(col[0]) + Column(col[Run(col)..])
  }

  predicate Cells(col: seq<nat>) {
    forall i :: 0 <= i < |col| ==> col[i] < U64
  }

  function Repeat(value: nat, run: nat): (r: seq<nat>)
    ensures |r| == run && forall i :: 0 <= i < run ==> r[i] == value
  {
    seq(run, i => value)
  }

  /* The run loop of one column with `left` rows to go, as a function. */
  function Runs(data: seq<Byte>, cursor: nat, left: nat, previous: Option<nat>): (r: Option<Read<seq<nat>>>)
    requires cursor <= |data|
    ensures r.Some? ==> cursor <= r.value.next <= |data| && |r.value.value| == left
    decreases left
  {
    if left == 0 then Some(Read([], cursor))
    else
      var run := Integer(data, cursor);
      if run.None? || !(1 <= run.value.value <= left) then None
      else
        var value := Integer(data, run.value.next);
        if value.None? || Some(value.value.value) == previous then None
        else
          var rest := Runs(data, value.value.next, left - run.value.value, Some(value.value.value));
          if rest.None? then None
          else Some(Read(Repeat(value.value.value, run.value.value) + rest.value.value, rest.value.next))
  }

  predicate Follows(previous: Option<nat>, col: seq<nat>) {
    previous.Some? && col != [] ==> col[0] != previous.value
  }

  /* Putting a run in front of a column that does not continue it. */
  lemma ColumnCons(value: nat, run: nat, rest: seq<nat>)
    requires run >= 1 && Follows(Some(value), rest)
    ensures Column(Repeat(value, run) + rest) == Uvarint(run) + Uvarint(value) + Column(rest)
  {
    var col := Repeat(value, run) + rest;
    RunUnique(col, run);
    assert col[run..] == rest;
  }

  lemma Slices(data: seq<Byte>, a: nat, b: nat, c: nat, d: nat)
    requires a <= b <= c <= d <= |data|
    ensures data[a..d] == data[a..b] + data[b..c] + data[c..d]
  {
  }

  lemma {:induction false} RunsSound(data: seq<Byte>, cursor: nat, left: nat, previous: Option<nat>)
    requires cursor <= |data| && Runs(data, cursor, left, previous).Some?
    ensures var r := Runs(data, cursor, left, previous).value;
            && Cells(r.value) && Follows(previous, r.value)
            && data[cursor..r.next] == Column(r.value)
    decreases left
  {
    if left > 0 {
      var run := Integer(data, cursor).value;
      var value := Integer(data, run.next).value;
      var rest := Runs(data, value.next, left - run.value, Some(value.value)).value;
      CanonicalInteger(data, cursor);
      CanonicalInteger(data, run.next);
      RunsSound(data, value.next, left - run.value, Some(value.value));
      ColumnCons(value.value, run.value, rest.value);
      Slices(data, cursor, run.next, value.next, rest.next);
    }
  }

  lemma CanonicalInteger(data: seq<Byte>, cursor: nat)
    requires cursor <= |data| && Integer(data, cursor).Some?
    ensures var r := Integer(data, cursor).value; r.value < U64 && data[cursor..r.next] == Uvarint(r.value)
  {
    LimitIsU64();
    IntegerSound(data, cursor, 0);
  }

  lemma ReadInteger(data: seq<Byte>, cursor: nat, v: nat, suffix: seq<Byte>)
    requires cursor <= |data| && v < U64 && data[cursor..] == Uvarint(v) + suffix
    ensures Integer(data, cursor) == Some(Read(v, cursor + |Uvarint(v)|))
    ensures data[cursor + |Uvarint(v)|..] == suffix
  {
    var e := Uvarint(v);
    assert |data[cursor..]| == |e| + |suffix|;
    assert data[cursor..cursor + |e|] == data[cursor..][..|e|] == e;
    assert data[cursor + |e|..] == data[cursor..][|e|..] == suffix;
    LimitIsU64();
    IntegerComplete(data, cursor, 0, v);
  }

  predicate Reads(data: seq<Byte>, cursor: nat, col: seq<nat>, previous: Option<nat>, next: nat)
    requires cursor <= |data|
  {
    var r := Runs(data, cursor, |col|, previous);
    r.Some? && r.value.value == col && r.value.next == next
  }

  lemma RunsStep(data: seq<Byte>, cursor: nat, col: seq<nat>, previous: Option<nat>,
                 n: nat, v: nat, at1: nat, at2: nat, at3: nat)
    requires cursor <= at1 <= at2 <= |data| && 1 <= n <= |col| && previous != Some(v)
    requires Integer(data, cursor) == Some(Read(n, at1))
    requires Integer(data, at1) == Some(Read(v, at2))
    requires Reads(data, at2, col[n..], Some(v), at3)
    requires Repeat(v, n) + col[n..] == col
    ensures Reads(data, cursor, col, previous, at3)
  {
  }

  lemma RunTail(col: seq<nat>)
    requires col != [] && Cells(col)
    ensures var rest := col[Run(col)..];
            Cells(rest) && Follows(Some(col[0]), rest) && Repeat(col[0], Run(col)) + rest == col
  {
    hide Run, Repeat, Cells;
    SplitRun(col, Run(col));
  }

  lemma SplitRun(col: seq<nat>, n: nat)
    requires 1 <= n <= |col| && Cells(col) && forall i :: 0 <= i < n ==> col[i] == col[0]
    ensures Cells(col[n..]) && Repeat(col[0], n) + col[n..] == col
  {
    assert Repeat(col[0], n) == col[..n];
    assert col == col[..n] + col[n..];
  }

  lemma {:induction false} RunsComplete(
      data: seq<Byte>, cursor: nat, col: seq<nat>, previous: Option<nat>, suffix: seq<Byte>)
    requires Cells(col) && Follows(previous, col) && |col| < U64
    requires cursor <= |data| && data[cursor..] == Column(col) + suffix
    ensures Reads(data, cursor, col, previous, cursor + |Column(col)|)
    decreases |col|
  {
    if col != [] {
      var n, v := Run(col), col[0];
      RunTail(col);
      ColumnThen(col, suffix);
      var at1, at2 := ReadRun(data, cursor, n, v, Column(col[n..]) + suffix);
      RunsComplete(data, at2, col[n..], Some(v), suffix);
      RunsStep(data, cursor, col, previous, n, v, at1, at2, at2 + |Column(col[n..])|);
    }
  }

  lemma ColumnThen(col: seq<nat>, suffix: seq<Byte>)
    requires col != []
    ensures Column(col) + suffix
         == Uvarint(Run(col)) + Uvarint(col[0]) + (Column(col[Run(col)..]) + suffix)
    ensures |Column(col)| == |Uvarint(Run(col)) + Uvarint(col[0])| + |Column(col[Run(col)..])|
  {
    hide Uvarint, Run, Column;
    ColumnStarts(col);
    Reassociate(Uvarint(Run(col)) + Uvarint(col[0]), Column(col[Run(col)..]), suffix);
  }

  lemma ColumnStarts(col: seq<nat>)
    requires col != []
    ensures Column(col) == Uvarint(Run(col)) + Uvarint(col[0]) + Column(col[Run(col)..])
  {
    hide Uvarint, Run;
  }

  lemma Reassociate(a: seq<Byte>, b: seq<Byte>, c: seq<Byte>)
    ensures a + b + c == a + (b + c)
  {
  }

  /* The two integers that open a column. */
  lemma ReadRun(data: seq<Byte>, cursor: nat, n: nat, v: nat, suffix: seq<Byte>) returns (at1: nat, at2: nat)
    requires cursor <= |data| && n < U64 && v < U64
    requires data[cursor..] == Uvarint(n) + Uvarint(v) + suffix
    ensures cursor <= at1 <= at2 <= |data| && at2 == cursor + |Uvarint(n) + Uvarint(v)|
    ensures Integer(data, cursor) == Some(Read(n, at1)) && Integer(data, at1) == Some(Read(v, at2))
    ensures data[at2..] == suffix
  {
    var a, b := Uvarint(n), Uvarint(v);
    assert data[cursor..] == a + (b + suffix);
    at1, at2 := cursor + |a|, cursor + |a| + |b|;
    ReadInteger(data, cursor, n, b + suffix);
    ReadInteger(data, at1, v, suffix);
  }

  lemma SuffixOf(data: seq<Byte>, cursor: nat, next: nat)
    requires cursor <= next <= |data|
    ensures data[cursor..] == data[cursor..next] + data[next..]
  {
  }

  /* A column is read back exactly when its bytes are its canonical runs. */
  lemma ColumnExact(data: seq<Byte>, cursor: nat, rows: nat, col: seq<nat>, next: nat)
    requires cursor <= |data| && rows <= MAX_ROWS
    ensures Runs(data, cursor, rows, None) == Some(Read(col, next))
       <==> |col| == rows && Cells(col) && cursor <= next <= |data| && data[cursor..next] == Column(col)
  {
    if Runs(data, cursor, rows, None) == Some(Read(col, next)) {
      RunsSound(data, cursor, rows, None);
    }
    if |col| == rows && Cells(col) && cursor <= next <= |data| && data[cursor..next] == Column(col) {
      SuffixOf(data, cursor, next);
      RunsComplete(data, cursor, col, None, data[next..]);
      assert Reads(data, cursor, col, None, next);
    }
  }

  // ---------- Tables ----------

  type Table = seq<seq<nat>>

  /* A table of `rows` rows of fifteen unsigned 64-bit cells. */
  predicate IsTable(t: Table, rows: nat) {
    && |t| == rows
    && forall i :: 0 <= i < rows ==> |t[i]| == FIELDS && Cells(t[i])
  }

  predicate AreColumns(cols: seq<seq<nat>>, rows: nat) {
    forall j :: 0 <= j < |cols| ==> |cols[j]| == rows && Cells(cols[j])
  }

  function ColumnOf(t: Table, rows: nat, j: nat): (col: seq<nat>)
    requires IsTable(t, rows) && j < FIELDS
    ensures |col| == rows && Cells(col)
  {
    seq(rows, i requires 0 <= i < rows => t[i][j])
  }

  function ColumnsOf(t: Table, rows: nat): (cols: seq<seq<nat>>)
    requires IsTable(t, rows)
    ensures |cols| == FIELDS && AreColumns(cols, rows)
  {
    seq(FIELDS, j requires 0 <= j < FIELDS => ColumnOf(t, rows, j))
  }

  function TableOf(cols: seq<seq<nat>>, rows: nat): (t: Table)
    requires |cols| == FIELDS && AreColumns(cols, rows)
    ensures IsTable(t, rows)
  {
    seq(rows, i requires 0 <= i < rows => seq(FIELDS, j requires 0 <= j < FIELDS => cols[j][i]))
  }

  lemma Transposes(t: Table, cols: seq<seq<nat>>, rows: nat)
    requires IsTable(t, rows) && |cols| == FIELDS && AreColumns(cols, rows)
    ensures t == TableOf(cols, rows) <==> cols == ColumnsOf(t, rows)
  {
    if t == TableOf(cols, rows) {
      forall j | 0 <= j < FIELDS
        ensures cols[j] == ColumnOf(t, rows, j)
      {
        assert forall i :: 0 <= i < rows ==> t[i][j] == cols[j][i];
      }
    }
    if cols == ColumnsOf(t, rows) {
      forall i | 0 <= i < rows
        ensures t[i] == TableOf(cols, rows)[i]
      {
        assert forall j :: 0 <= j < FIELDS ==> cols[j] == ColumnOf(t, rows, j);
      }
    }
  }

  function Columns(cols: seq<seq<nat>>): (r: seq<Byte>) {
    if cols == [] then [] else Column(cols[0]) + Columns(cols[1..])
  }

  /* The canonical bytes of a table. */
  function TableBytes(t: Table, rows: nat): (r: seq<Byte>)
    requires IsTable(t, rows)
  {
    Columns(ColumnsOf(t, rows))
  }

  /* The column loop with `n` columns to go, as a function. */
  function ReadColumns(data: seq<Byte>, cursor: nat, rows: nat, n: nat): (r: Option<Read<seq<seq<nat>>>>)
    requires cursor <= |data|
    ensures r.Some? ==> cursor <= r.value.next <= |data| && |r.value.value| == n
    decreases n
  {
    if n == 0 then Some(Read([], cursor))
    else
      var col := Runs(data, cursor, rows, None);
      if col.None? then None
      else
        var rest := ReadColumns(data, col.value.next, rows, n - 1);
        if rest.None? then None else Some(Read([col.value.value] + rest.value.value, rest.value.next))
  }

  lemma ColumnsCons(col: seq<nat>, rest: seq<seq<nat>>)
    ensures Columns([col] + rest) == Column(col) + Columns(rest)
  {
    assert ([col] + rest)[1..] == rest;
  }

  lemma After(data: seq<Byte>, cursor: nat, head: seq<Byte>, rest: seq<Byte>)
    requires cursor <= |data| && data[cursor..] == head + rest
    ensures cursor + |head| <= |data| && data[cursor + |head|..] == rest
  {
    assert |data[cursor..]| == |head| + |rest|;
    assert data[cursor + |head|..] == data[cursor..][|head|..];
  }

  lemma ColumnsStep(data: seq<Byte>, cursor: nat, rows: nat, cols: seq<seq<nat>>, at: nat)
    requires cursor <= at <= |data| && cols != [] && |cols[0]| == rows
    requires Reads(data, cursor, cols[0], None, at)
    requires ReadColumns(data, at, rows, |cols| - 1).Some?
    ensures var rest := ReadColumns(data, at, rows, |cols| - 1);
            var r := ReadColumns(data, cursor, rows, |cols|);
            r.Some? && r.value.value == [cols[0]] + rest.value.value && r.value.next == rest.value.next
  {
  }

  lemma ReadColumnsStep(data: seq<Byte>, cursor: nat, rows: nat, n: nat)
    requires cursor <= |data| && n > 0 && ReadColumns(data, cursor, rows, n).Some?
    ensures Runs(data, cursor, rows, None).Some?
    ensures var col := Runs(data, cursor, rows, None).value;
            var rest := ReadColumns(data, col.next, rows, n - 1);
            var r := ReadColumns(data, cursor, rows, n).value;
            rest.Some? && r.value == [col.value] + rest.value.value && r.next == rest.value.next
  {
  }

  lemma NoColumns(data: seq<Byte>, cursor: nat, rows: nat)
    requires cursor <= |data|
    ensures ReadColumns(data, cursor, rows, 0) == Some(Read([], cursor)) && Columns([]) == []
  {
  }

  lemma {:induction false} ColumnsSound(data: seq<Byte>, cursor: nat, rows: nat, n: nat)
    requires cursor <= |data| && rows <= MAX_ROWS && ReadColumns(data, cursor, rows, n).Some?
    ensures var r := ReadColumns(data, cursor, rows, n).value;
            AreColumns(r.value, rows) && data[cursor..r.next] == Columns(r.value)
    decreases n
  {
    hide Column, Columns, ReadColumns, Runs;
    if n == 0 {
      NoColumns(data, cursor, rows);
    } else {
      ReadColumnsStep(data, cursor, rows, n);
      var col := Runs(data, cursor, rows, None).value;
      RunsSound(data, cursor, rows, None);
      ColumnsSound(data, col.next, rows, n - 1);
      var rest := ReadColumns(data, col.next, rows, n - 1).value;
      ColumnsCons(col.value, rest.value);
      Slices(data, cursor, cursor, col.next, rest.next);
    }
  }

  lemma {:induction false} ColumnsComplete(
      data: seq<Byte>, cursor: nat, rows: nat, cols: seq<seq<nat>>, suffix: seq<Byte>)
    requires cursor <= |data| && rows <= MAX_ROWS && AreColumns(cols, rows)
    requires data[cursor..] == Columns(cols) + suffix
    ensures var r := ReadColumns(data, cursor, rows, |cols|);
            r.Some? && r.value.value == cols && r.value.next == cursor + |Columns(cols)|
    decreases |cols|
  {
    hide Column, Runs;
    if cols != [] {
      var head, tail := Column(cols[0]), Columns(cols[1..]);
      assert data[cursor..] == head + (tail + suffix);
      RunsComplete(data, cursor, cols[0], None, tail + suffix);
      After(data, cursor, head, tail + suffix);
      ColumnsComplete(data, cursor + |head|, rows, cols[1..], suffix);
      ColumnsStep(data, cursor, rows, cols, cursor + |head|);
      assert [cols[0]] + cols[1..] == cols;
    }
  }

  /* The whole byte reader. */
  function ReadTable(data: seq<Byte>, rows: nat): (r: Option<Table>)
    requires rows <= MAX_ROWS
    ensures r.Some? ==> IsTable(r.value, rows)
  {
    var cols := ReadColumns(data, 0, rows, FIELDS);
    if cols.Some? && cols.value.next == |data| then
      ColumnsSound(data, 0, rows, FIELDS);
      Some(TableOf(cols.value.value, rows))
    else None
  }

  /* The reader and the canonical writer are inverse: bytes are accepted exactly when they are the canonical bytes of
  the table read. */
  lemma TableExact(data: seq<Byte>, rows: nat, t: Table)
    requires rows <= MAX_ROWS && IsTable(t, rows)
    ensures ReadTable(data, rows) == Some(t) <==> data == TableBytes(t, rows)
  {
    if ReadTable(data, rows) == Some(t) {
      ColumnsSound(data, 0, rows, FIELDS);
      var cols := ReadColumns(data, 0, rows, FIELDS).value.value;
      Transposes(t, cols, rows);
      assert data[0..|data|] == data;
    }
    if data == TableBytes(t, rows) {
      var cols := ColumnsOf(t, rows);
      assert data[0..] == Columns(cols) + [];
      ColumnsComplete(data, 0, rows, cols, []);
      Transposes(t, cols, rows);
    }
  }

  // ---------- The size guard ----------

  lemma {:induction false} UvarintSize(v: nat, digit: nat)
    requires digit <= 9 && v < Limit(digit)
    ensures |Uvarint(v)| <= 10 - digit
    decreases 9 - digit
  {
    if v >= 128 {
      UvarintSize(v / 128, digit + 1);
    }
  }

  lemma {:induction false} UvarintAtMost(v: nat)
    requires v >= 1
    ensures |Uvarint(v)| <= v
  {
    if v >= 128 { UvarintAtMost(v / 128); }
  }

  lemma {:induction false} ColumnSize(col: seq<nat>)
    requires Cells(col)
    ensures |Column(col)| <= 11 * |col|
    decreases |col|
  {
    if col != [] {
      LimitIsU64();
      UvarintAtMost(Run(col));
      UvarintSize(col[0], 0);
      RunTail(col);
      ColumnSize(col[Run(col)..]);
    }
  }

  lemma {:induction false} ColumnsSize(cols: seq<seq<nat>>, bound: nat)
    requires forall j :: 0 <= j < |cols| ==> |Column(cols[j])| <= bound
    ensures |Columns(cols)| <= |cols| * bound
  {
    if cols != [] {
      assert |Column(cols[0])| <= bound;
      forall j | 0 <= j < |cols[1..]|
        ensures |Column(cols[1..][j])| <= bound
      {
        assert cols[1..][j] == cols[j + 1];
      }
      ColumnsSize(cols[1..], bound);
      OneMore(|cols[1..]|, bound);
    }
  }

  lemma OneMore(n: nat, bound: nat)
    ensures (n + 1) * bound == n * bound + bound
  {
  }

  function MaxBytes(rows: nat): nat {
    rows * FIELDS * 11
  }

  /* No canonical frame is refused by the size guards. */
  lemma TableSize(t: Table, rows: nat)
    requires IsTable(t, rows)
    ensures |TableBytes(t, rows)| <= MaxBytes(rows)
    ensures |Encode(TableBytes(t, rows))| <= 4 * ((MaxBytes(rows) + 2) / 3)
  {
    hide Column, Columns, Uvarint, ColumnsOf, IsTable, Encode, Cells;
    var cols := ColumnsOf(t, rows);
    forall j | 0 <= j < |cols|
      ensures |Column(cols[j])| <= 11 * rows
    {
      ColumnSize(cols[j]);
    }
    ColumnsSize(cols, 11 * rows);
  }

  // ---------- The source's loops ----------

  predicate Grid(copies: Table, rows: nat) {
    |copies| == rows && forall i :: 0 <= i < rows ==> |copies[i]| == FIELDS
  }

  /* `now` is `before` with the first cells of one column replaced. */
  predicate Filled(before: Table, now: Table, rows: nat, column: nat, cells: seq<nat>)
    requires Grid(before, rows) && column < FIELDS && |cells| <= rows
  {
    && Grid(now, rows)
    && (forall i :: 0 <= i < |cells| ==> now[i] == before[i][column := cells[i]])
    && (forall i :: |cells| <= i < rows ==> now[i] == before[i])
  }

  /* The innermost loop: write one run into its rows. */
  method FillRun(copies: Table, ghost before: Table, rows: nat, column: nat, nextRow: nat, ghost cells: seq<nat>,
                 run: nat, value: nat)
      returns (filled: Table)
    requires Grid(before, rows) && column < FIELDS && |cells| == nextRow && nextRow + run <= rows
    requires Filled(before, copies, rows, column, cells)
    ensures Filled(before, filled, rows, column, cells + Repeat(value, run))
  {
    filled := copies;
    assert cells + Repeat(value, 0) == cells;
    for index := nextRow to nextRow + run
      invariant Filled(before, filled, rows, column, cells + Repeat(value, index - nextRow))
    {
      var row: seq<nat> := filled[index][column := value];
      filled := filled[index := row];
    }
  }

  /* Reading a column from `start` comes down to `cells` followed by what remains at `cursor`. */
  ghost predicate Continues(
      data: seq<Byte>, start: nat, rows: nat, cells: seq<nat>, cursor: nat, previous: Option<nat>)
    requires start <= |data| && cursor <= |data| && |cells| <= rows
  {
    var whole := Runs(data, start, rows, None);
    var rest := Runs(data, cursor, rows - |cells|, previous);
    && (whole.Some? <==> rest.Some?)
    && (whole.Some? ==> whole.value.value == cells + rest.value.value && whole.value.next == rest.value.next)
  }

  lemma ContinuesStep(data: seq<Byte>, start: nat, rows: nat, cells: seq<nat>, cursor: nat, previous: Option<nat>)
    requires start <= |data| && cursor <= |data| && |cells| < rows
    requires Continues(data, start, rows, cells, cursor, previous)
    requires Integer(data, cursor).Some? && 1 <= Integer(data, cursor).value.value <= rows - |cells|
    requires Integer(data, Integer(data, cursor).value.next).Some?
    ensures var run := Integer(data, cursor).value;
            var value := Integer(data, run.next).value;
            Some(value.value) != previous ==>
              Continues(data, start, rows, cells + Repeat(value.value, run.value), value.next, Some(value.value))
  {
    var run := Integer(data, cursor).value;
    var value := Integer(data, run.next).value;
    var rest := Runs(data, value.next, rows - |cells| - run.value, Some(value.value));
    if rest.Some? {
      assert cells + (Repeat(value.value, run.value) + rest.value.value)
          == cells + Repeat(value.value, run.value) + rest.value.value;
    }
  }

  /* One column: read runs until every row is filled. */
  method DecodeColumn(data: seq<Byte>, start: nat, rows: nat, copies: Table, column: nat)
      returns (r: Option<nat>, filled: Table)
    requires start <= |data| && Grid(copies, rows) && column < FIELDS
    ensures var spec := Runs(data, start, rows, None);
            && (r.Some? <==> spec.Some?)
            && (spec.Some? ==> r.value == spec.value.next && Filled(copies, filled, rows, column, spec.value.value))
  {
    filled := copies;
    var cursor: nat, nextRow: nat := start, 0;
    var previous: Option<nat> := None;
    ghost var cells: seq<nat> := [];
    while nextRow < rows
      invariant cursor <= |data| && |cells| == nextRow <= rows
      invariant Filled(copies, filled, rows, column, cells)
      invariant Continues(data, start, rows, cells, cursor, previous)
    {
      var run := DecodeInteger(data, cursor);
      if run.None? || !(1 <= run.value.value <= rows - nextRow) {
        return None, filled;
      }
      var value := DecodeInteger(data, run.value.next);
      if value.None? || Some(value.value.value) == previous {
        return None, filled;
      }
      ContinuesStep(data, start, rows, cells, cursor, previous);
      filled := FillRun(filled, copies, rows, column, nextRow, cells, run.value.value, value.value.value);
      cells := cells + Repeat(value.value.value, run.value.value);
      cursor := value.value.next;
      nextRow := nextRow + run.value.value;
      previous := Some(value.value.value);
    }
    r := Some(cursor);
  }

  /* The cells of the columns already read; the others are still zero. */
  predicate Partial(copies: Table, rows: nat, cols: seq<seq<nat>>)
    requires |cols| <= FIELDS && AreColumns(cols, rows)
  {
    && Grid(copies, rows)
    && forall i, j :: 0 <= i < rows && 0 <= j < |cols| ==> copies[i][j] == cols[j][i]
  }

  ghost predicate ContinuesColumns(data: seq<Byte>, rows: nat, n: nat, cols: seq<seq<nat>>, cursor: nat)
    requires cursor <= |data| && |cols| <= n
  {
    var whole := ReadColumns(data, 0, rows, n);
    var rest := ReadColumns(data, cursor, rows, n - |cols|);
    && (whole.Some? <==> rest.Some?)
    && (whole.Some? ==> whole.value.value == cols + rest.value.value && whole.value.next == rest.value.next)
  }

  lemma ContinuesColumnsStep(data: seq<Byte>, rows: nat, n: nat, cols: seq<seq<nat>>, cursor: nat)
    requires cursor <= |data| && |cols| < n && ContinuesColumns(data, rows, n, cols, cursor)
    requires Runs(data, cursor, rows, None).Some?
    ensures var col := Runs(data, cursor, rows, None).value;
            ContinuesColumns(data, rows, n, cols + [col.value], col.next)
  {
    hide Runs;
    var col := Runs(data, cursor, rows, None).value;
    var rest := ReadColumns(data, col.next, rows, n - |cols| - 1);
    if rest.Some? {
      assert cols + ([col.value] + rest.value.value) == cols + [col.value] + rest.value.value;
    }
  }

  lemma PartialStep(copies: Table, filled: Table, rows: nat, cols: seq<seq<nat>>, col: seq<nat>)
    requires |cols| < FIELDS && AreColumns(cols, rows) && Partial(copies, rows, cols)
    requires |col| == rows && Cells(col) && Filled(copies, filled, rows, |cols|, col)
    ensures AreColumns(cols + [col], rows) && Partial(filled, rows, cols + [col])
  {
  }

  /* Fill the table column by column. */
  method FillColumns(data: seq<Byte>, rows: nat) returns (r: Option<nat>, copies: Table)
    requires rows <= MAX_ROWS
    ensures var spec := ReadColumns(data, 0, rows, FIELDS);
            && (r.Some? <==> spec.Some?)
            && (spec.Some? ==>
                  && r.value == spec.value.next
                  && AreColumns(spec.value.value, rows)
                  && Partial(copies, rows, spec.value.value))
  {
    copies := seq(rows, i => seq(FIELDS, j => 0));
    var cursor: nat := 0;
    ghost var cols: seq<seq<nat>> := [];
    for column := 0 to FIELDS
      invariant cursor <= |data| && |cols| == column && AreColumns(cols, rows)
      invariant Partial(copies, rows, cols)
      invariant ContinuesColumns(data, rows, FIELDS, cols, cursor)
    {
      var next, filled := DecodeColumn(data, cursor, rows, copies, column);
      if next.None? {
        return None, copies;
      }
      ContinuesColumnsStep(data, rows, FIELDS, cols, cursor);
      RunsSound(data, cursor, rows, None);
      ghost var col := Runs(data, cursor, rows, None).value.value;
      PartialStep(copies, filled, rows, cols, col);
      cols := cols + [col];
      copies := filled;
      cursor := next.value;
    }
    r := Some(cursor);
  }

  /* The whole byte reader: trailing bytes are refused. */
  method DecodeTable(data: seq<Byte>, rows: nat) returns (r: Option<Table>)
    requires rows <= MAX_ROWS
    ensures r == ReadTable(data, rows)
  {
    var end, copies := FillColumns(data, rows);
    if end.None? || end.value != |data| {
      return None;
    }
    PartialComplete(copies, rows, ReadColumns(data, 0, rows, FIELDS).value.value);
    r := Some(copies);
  }

  lemma PartialComplete(copies: Table, rows: nat, cols: seq<seq<nat>>)
    requires |cols| == FIELDS && AreColumns(cols, rows) && Partial(copies, rows, cols)
    ensures copies == TableOf(cols, rows)
  {
    forall i | 0 <= i < rows
      ensures copies[i] == TableOf(cols, rows)[i]
    {
    }
  }

  const ENCODING := "uvarint-rle-base64-v1"

  /* The canonical text of a table. */
  function Frame(t: Table, rows: nat): string
    requires IsTable(t, rows)
  {
    Encode(TableBytes(t, rows))
  }

  /* The text reader, as a function. */
  function ReadFrame(rows: int, descriptors: int, encoding: string, text: string): (r: Option<Table>)
    ensures r.Some? ==> 1 <= rows == descriptors && IsTable(r.value, rows)
  {
    if rows != descriptors || !(1 <= rows <= MAX_ROWS) || encoding != ENCODING then None
    else if |text| > 4 * ((MaxBytes(rows) + 2) / 3) then None
    else
      var data := Decode(text);
      if data.None? || |data.value| > MaxBytes(rows) || Encode(data.value) != text then None
      else ReadTable(data.value, rows)
  }

  /* A frame is accepted exactly when it is the canonical text of a table of the declared number of rows, and then
  yields that table; the size guards never refuse one. */
  lemma FrameExact(rows: int, descriptors: int, encoding: string, text: string, t: Table)
    requires rows >= 1 && IsTable(t, rows)
    ensures ReadFrame(rows, descriptors, encoding, text) == Some(t)
       <==> rows == descriptors && rows <= MAX_ROWS && encoding == ENCODING && text == Frame(t, rows)
  {
    TableSize(t, rows);
    RoundTrip(TableBytes(t, rows));
    var data := Decode(text);
    if rows <= MAX_ROWS && data.Some? {
      TableExact(data.value, rows, t);
    }
  }

  lemma FrameInjective(t: Table, u: Table, rows: nat)
    requires 1 <= rows <= MAX_ROWS && IsTable(t, rows) && IsTable(u, rows)
    requires Frame(t, rows) == Frame(u, rows)
    ensures t == u
  {
    FrameExact(rows, rows, ENCODING, Frame(t, rows), t);
    FrameExact(rows, rows, ENCODING, Frame(t, rows), u);
  }

  lemma FramesExact(rows: nat, descriptors: int, encoding: string, text: string)
    requires rows >= 1
    ensures forall t :: IsTable(t, rows) ==>
              (ReadFrame(rows, descriptors, encoding, text) == Some(t)
               <==> rows == descriptors && rows <= MAX_ROWS && encoding == ENCODING && text == Frame(t, rows))
  {
    forall t | IsTable(t, rows)
      ensures ReadFrame(rows, descriptors, encoding, text) == Some(t)
         <==> rows == descriptors && rows <= MAX_ROWS && encoding == ENCODING && text == Frame(t, rows)
    {
      FrameExact(rows, descriptors, encoding, text, t);
    }
  }

  /* `_decode_copies` for encoded frames. */
  method DecodeCopies(rows: int, descriptors: int, encoding: string, text: string) returns (r: Option<Table>)
    ensures r == ReadFrame(rows, descriptors, encoding, text)
    ensures rows >= 1 ==> forall t :: IsTable(t, rows) ==>
              (r == Some(t)
               <==> rows == descriptors && rows <= MAX_ROWS && encoding == ENCODING && text == Frame(t, rows))
  {
    if rows >= 1 { FramesExact(rows, descriptors, encoding, text); }
    if rows != descriptors || !(1 <= rows <= MAX_ROWS) || encoding != ENCODING {
      return None;
    }
    if |text| > 4 * ((MaxBytes(rows) + 2) / 3) {
      return None;
    }
    var data := Decode(text);
    if data.None? || |data.value| > MaxBytes(rows) || Encode(data.value) != text {
      return None;
    }
    r := DecodeTable(data.value, rows);
  }
}
