/** Positions in the editor's buffer: the character offset of a row and column (`get_position`),
    and the column where the word under the cursor starts (`detect_row_column_start`). */
module Text {
  import opened Wrappers

  /** Python's `xs[:n]` for any integer `n`; a negative `n` drops that many elements from the end. */
  function Take<T>(xs: seq<T>, n: int): (r: seq<T>)
    ensures r <= xs
    ensures n >= 0 ==> |r| == (if n <= |xs| then n else |xs|)
    ensures n < 0 ==> |r| == (if -n <= |xs| then |xs| + n else 0)
  {
    if n >= 0 then xs[..if n <= |xs| then n else |xs|]
    else xs[..if |xs| + n >= 0 then |xs| + n else 0]
  }

  /** The characters the lines occupy, each line counted with its line break. */
  function LineSpan(lines: seq<string>): nat
  {
    if lines == [] then 0 else |lines[0]| + 1 + LineSpan(lines[1..])
  }

  /** The buffer's text: every line followed by a newline. */
  function Joined(lines: seq<string>): string
  {
    if lines == [] then "" else lines[0] + "\n" + Joined(lines[1..])
  }

  /** `get_position`: the column plus the span of the lines before `row`, which counts from one. */
  function GetPosition(lines: seq<string>, row: int, col: int): (r: int)
    ensures r >= col
  {
    col + LineSpan(Take(lines, row - 1))
  }

  /** The span of the lines is the length of their text. */
  lemma {:induction false} JoinedLength(lines: seq<string>)
    ensures |Joined(lines)| == LineSpan(lines)
  {
    if lines != [] {
      JoinedLength(lines[1..]);
    }
  }

  /** The text of consecutive lines is the text of the first part followed by that of the rest. */
  lemma {:induction false} JoinedAppend(a: seq<string>, b: seq<string>)
    ensures Joined(a + b) == Joined(a) + Joined(b)
  {
    if a != [] {
      assert (a + b)[1..] == a[1..] + b;
      JoinedAppend(a[1..], b);
    } else {
      assert a + b == b;
    }
  }

  /** The position of a row and column inside the buffer indexes that very character of the
      buffer's text, and the column just past the line's end indexes its line break. */
  lemma PositionIndexesText(lines: seq<string>, row: int, col: int)
    requires 1 <= row <= |lines|
    requires 0 <= col <= |lines[row - 1]|
    ensures 0 <= GetPosition(lines, row, col) < |Joined(lines)|
    ensures Joined(lines)[GetPosition(lines, row, col)] == if col < |lines[row - 1]| then lines[row - 1][col] else '\n'
  {
    var before, rest := lines[..row - 1], lines[row - 1..];
    assert lines == before + rest;
    JoinedAppend(before, rest);
    JoinedLength(before);
    JoinedLength(lines);
    assert Joined(rest) == lines[row - 1] + "\n" + Joined(rest[1..]);
  }

  /** A row of zero counts every line but the last, as Python's `lines[:-1]` does. */
  lemma RowZeroSkipsLastLine(lines: seq<string>, col: int)
    requires lines != []
    ensures GetPosition(lines, 0, col) == col + LineSpan(lines[..|lines| - 1])
  {
  }

  /** The characters that end a word when completing: space, `.`, `,`, `(`, `[` and `{`. */
  predicate IsDelimiter(c: char)
  {
    c in " .,([{"
  }

  /** `s` is the completion start for a cursor at `col`: no delimiter lies between `s` and the
      cursor, and either a delimiter sits just before `s` or the word reaches the line's start,
      which is reported as column 1. */
  predicate IsWordStart(line: string, col: nat, s: int)
    requires col <= |line|
  {
    && 1 <= s && (s <= col || s == 1)
    && (forall i :: s <= i < col ==> !IsDelimiter(line[i]))
    && ((s == 1 && forall i :: 0 <= i < col ==> !IsDelimiter(line[i])) || IsDelimiter(line[s - 1]))
  }

  /** The start column is determined by the line and the cursor. */
  lemma WordStartUnique(line: string, col: nat, s: int, t: int)
    requires col <= |line|
    requires IsWordStart(line, col, s) && IsWordStart(line, col, t)
    ensures s == t
  {
  }

  /** `detect_row_column_start`: walks left from the cursor to the first delimiter. A cursor past
      the line's end makes the first lookup fail, which is `None`. */
  method DetectStart(line: string, col: nat) returns (r: Option<int>)
    ensures r.Some? <==> col <= |line|
    ensures r.Some? ==> IsWordStart(line, col, r.value)
  {
    if col > |line| {
      return None;
    }
    var start := col;
    while start > 0 && !IsDelimiter(line[start - 1])
      invariant 0 <= start <= col
      invariant forall i :: start <= i < col ==> !IsDelimiter(line[i])
    {
      start := start - 1;
    }
    r := Some(if start != 0 then start else 1);
  }
}
