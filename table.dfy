/** The HTML string that `insertTable` builds for a grid of placeholder cells. */
module Table {

  const TABLE_OPEN: string := "<table border=\"1\"><tbody>"
  const ROW_OPEN: string := "<tr>"
  const CELL: string := "<td>Cell</td>"
  const ROW_CLOSE: string := "</tr>"
  const TABLE_CLOSE: string := "</tbody></table>"

  /** `n` copies of `s`, one after another. */
  function Repeat(s: string, n: nat): (r: string)
  {
    if n == 0 then [] else Repeat(s, n - 1) + s
  }

  /** One row: `<tr>`, then the cells, then `</tr>`, 13 characters per cell plus 9. */
  function RowHtml(cols: nat): (r: string)
    ensures |r| == 9 + 13 * cols
    ensures |r| >= |ROW_OPEN| + |ROW_CLOSE|
    ensures r[..|ROW_OPEN|] == ROW_OPEN && r[|r| - |ROW_CLOSE|..] == ROW_CLOSE
  {
    RepeatLength(CELL, cols);
    ROW_OPEN + Repeat(CELL, cols) + ROW_CLOSE
  }

  /** The table as a whole: opening tags, `rows` rows of `cols` cells, closing tags. */
  function TableHtml(rows: nat, cols: nat): (r: string)
    ensures |r| >= |TABLE_OPEN| + |TABLE_CLOSE|
    ensures r[..|TABLE_OPEN|] == TABLE_OPEN && r[|r| - |TABLE_CLOSE|..] == TABLE_CLOSE
    ensures rows == 0 ==> r == TABLE_OPEN + TABLE_CLOSE
  {
    TABLE_OPEN + Repeat(RowHtml(cols), rows) + TABLE_CLOSE
  }

  /** The nested loops of `insertTable`, accumulating the string piece by piece. */
  method BuildTable(rows: nat, cols: nat) returns (table: string)
    ensures table == TableHtml(rows, cols)
  {
    ghost var row := RowHtml(cols);
    table := TABLE_OPEN;
    for i := 0 to rows
      invariant table == TABLE_OPEN + Repeat(row, i)
    {
      ghost var done := table;
      table := table + ROW_OPEN;
      for j := 0 to cols
        invariant table == (done + ROW_OPEN) + Repeat(CELL, j)
      {
        ConcatAssoc(done + ROW_OPEN, Repeat(CELL, j), CELL);
        table := table + CELL;
      }
      ConcatAssoc(done, ROW_OPEN + Repeat(CELL, cols), ROW_CLOSE);
      ConcatAssoc(done, ROW_OPEN, Repeat(CELL, cols));
      table := table + ROW_CLOSE;
      ConcatAssoc(TABLE_OPEN, Repeat(row, i), row);
    }
    table := table + TABLE_CLOSE;
  }

  /** Concatenation regroups freely; the loops add one piece at a time. */
  lemma ConcatAssoc(a: string, b: string, c: string)
    ensures (a + b) + c == a + (b + c)
  {
  }

  lemma {:induction false} RepeatLength(s: string, n: nat)
    ensures |Repeat(s, n)| == n * |s|
  {
    if n > 0 {
      RepeatLength(s, n - 1);
    }
  }

  /** Copy number `k` of `s` sits at offset `k * |s|`. */
  lemma {:induction false} RepeatAt(s: string, n: nat, k: nat)
    requires k < n
    ensures |Repeat(s, n)| == n * |s|
    ensures k * |s| + |s| <= n * |s|
    ensures Repeat(s, n)[k * |s| .. k * |s| + |s|] == s
  {
    var len := |s|;
    var prefix := Repeat(s, n - 1);
    RepeatLength(s, n);
    RepeatLength(s, n - 1);
    assert Repeat(s, n) == prefix + s;
    if k < n - 1 {
      RepeatAt(s, n - 1, k);
      assert (prefix + s)[k * len .. k * len + len] == prefix[k * len .. k * len + len];
    } else {
      assert (prefix + s)[|prefix| .. |prefix| + len] == s;
    }
  }

  /** The frame adds 41 characters to the rows, each 9 + 13 * cols long. */
  lemma TableLength(rows: nat, cols: nat)
    ensures |TableHtml(rows, cols)| == 41 + rows * (9 + 13 * cols)
  {
    RepeatLength(RowHtml(cols), rows);
  }

  /** Row `i` of the table is the row of `cols` cells, at its fixed offset. */
  lemma TableRowAt(rows: nat, cols: nat, i: nat)
    requires i < rows
    ensures var start := |TABLE_OPEN| + i * |RowHtml(cols)|;
      start + |RowHtml(cols)| <= |TableHtml(rows, cols)| &&
      TableHtml(rows, cols)[start .. start + |RowHtml(cols)|] == RowHtml(cols)
  {
    FramedCopyAt(RowHtml(cols), rows, i);
  }

  /** Within the table tags, copy `i` of a repeated row sits at its fixed offset. */
  lemma FramedCopyAt(row: string, rows: nat, i: nat)
    requires i < rows
    ensures var whole, start := TABLE_OPEN + Repeat(row, rows) + TABLE_CLOSE, |TABLE_OPEN| + i * |row|;
      start + |row| <= |whole| && whole[start .. start + |row|] == row
  {
    RepeatAt(row, rows, i);
    SliceInMiddle(TABLE_OPEN, Repeat(row, rows), TABLE_CLOSE, i * |row|, i * |row| + |row|);
  }

  /** A slice of the middle part of `a + b + c`, shifted by `|a|`, is that slice of `b`. */
  lemma SliceInMiddle(a: string, b: string, c: string, lo: nat, hi: nat)
    requires lo <= hi <= |b|
    ensures |a| + hi <= |a + b + c|
    ensures (a + b + c)[|a| + lo .. |a| + hi] == b[lo .. hi]
  {
    assert a + b + c == a + (b + c);
    assert (a + (b + c))[|a|..] == b + c;
    assert (b + c)[lo .. hi] == b[lo .. hi];
  }
}
