/**
 * Reading a matrix of doubles from delimited text: one matrix row per line,
 * cells separated by ';' where the locale writes decimals with ',' and by ','
 * otherwise; an empty cell is NaN, short rows are padded with NaN, and any
 * unparsable cell or read failure gives no matrix at all.
 */
module DelimitedMatrix {
  import opened Values

  /** What one `readLine` call gives: a line, the end of the stream, or an I/O failure. */
  datatype ReadResult = GotLine(line: string) | EndOfStream | IoError

  // ---------------------------------------------------------------------------
  // The separator and one token

  /** The cell separator for a locale decimal separator: never the decimal separator itself. */
  function Separator(decimalSeparator: char): (c: char)
    ensures c != decimalSeparator
    ensures decimalSeparator == ',' ==> c == ';'
    ensures decimalSeparator != ',' ==> c == ','
  {
    if decimalSeparator == ',' then ';' else ','
  }

  /** The first position at or after `st` that is not a blank (a character up to the space). */
  function SkipLeading(s: string, st: nat): (r: nat)
    requires st <= |s|
    ensures st <= r <= |s|
    ensures forall i :: st <= i < r ==> s[i] <= ' '
    ensures r < |s| ==> s[r] > ' '
    decreases |s| - st
  {
    if st < |s| && s[st] <= ' ' then SkipLeading(s, st + 1) else st
  }

  /** The end of `s[st..len]` once its trailing blanks are dropped. */
  function SkipTrailing(s: string, st: nat, len: nat): (r: nat)
    requires st <= len <= |s|
    ensures st <= r <= len
    ensures forall i :: r <= i < len ==> s[i] <= ' '
    ensures r > st ==> s[r - 1] > ' '
    decreases len - st
  {
    if st < len && s[len - 1] <= ' ' then SkipTrailing(s, st, len - 1) else len
  }

  /** Java's `String.trim`: `s` without its leading and trailing blanks. */
  function Trim(s: string): string {
    var st := SkipLeading(s, 0);
    s[st..SkipTrailing(s, st, |s|)]
  }

  /** Trimming keeps a contiguous part of `s` and drops only blanks around it. */
  lemma TrimSlice(s: string)
    ensures exists a, b :: 0 <= a <= b <= |s| && Trim(s) == s[a..b] &&
              (forall i :: 0 <= i < a ==> s[i] <= ' ') && (forall i :: b <= i < |s| ==> s[i] <= ' ')
  {
    var a := SkipLeading(s, 0);
    var b := SkipTrailing(s, a, |s|);
    assert Trim(s) == s[a..b];
  }

  /** The trimmed string is empty exactly when `s` is all blanks; otherwise it starts and ends with a non-blank. */
  lemma TrimEnds(s: string)
    ensures Trim(s) == [] <==> forall i :: 0 <= i < |s| ==> s[i] <= ' '
    ensures Trim(s) != [] ==> Trim(s)[0] > ' ' && Trim(s)[|Trim(s)| - 1] > ' '
  {
    var a := SkipLeading(s, 0);
    var b := SkipTrailing(s, a, |s|);
    var t := s[a..b];
    assert Trim(s) == t;
    if t == [] {
      assert a == |s|;
    } else {
      assert t[0] == s[a] && t[|t| - 1] == s[b - 1];
    }
  }

  /** Trimming twice is trimming once. */
  lemma TrimIdempotent(s: string)
    ensures Trim(Trim(s)) == Trim(s)
  {
    var t := Trim(s);
    TrimEnds(s);
    if t != [] {
      assert SkipLeading(t, 0) == 0;
      assert SkipTrailing(t, 0, |t|) == |t|;
      assert t[0..|t|] == t;
    }
  }

  /** A token's value: NaN when it is empty once trimmed, otherwise what the parser makes of the trimmed token. */
  function Token(t: string, parse: string -> Option<Double>): Option<Double> {
    if Trim(t) == [] then Some(NaN) else parse(Trim(t))
  }

  // ---------------------------------------------------------------------------
  // Rows and lines

  /** The values of a line's tokens, in order; nothing when some token does not parse. */
  function ParseRow(tokens: seq<string>, parse: string -> Option<Double>): (r: Option<seq<Double>>)
    ensures r.Some? ==> |r.value| == |tokens|
  {
    if tokens == [] then Some([])
    else
      var prev := ParseRow(tokens[..|tokens| - 1], parse);
      var last := Token(tokens[|tokens| - 1], parse);
      if prev.None? || last.None? then None else Some(prev.value + [last.value])
  }

  /** A row parses exactly when each of its tokens does, and then holds each token's value at its position. */
  lemma {:induction false} ParseRowValues(tokens: seq<string>, parse: string -> Option<Double>)
    ensures ParseRow(tokens, parse).Some? <==> forall j :: 0 <= j < |tokens| ==> Token(tokens[j], parse).Some?
    ensures ParseRow(tokens, parse).Some? ==>
              forall j :: 0 <= j < |tokens| ==> ParseRow(tokens, parse).value[j] == Token(tokens[j], parse).value
  {
    if tokens != [] {
      ParseRowValues(tokens[..|tokens| - 1], parse);
    }
  }

  /** The rows of the lines, in input order; nothing when some line has a token that does not parse. */
  function ParseLines(lines: seq<string>, sep: char, tokenize: (string, char) -> seq<string>,
                      parse: string -> Option<Double>): (r: Option<seq<seq<Double>>>)
    ensures r.Some? ==> |r.value| == |lines|
  {
    if lines == [] then Some([])
    else
      var prev := ParseLines(lines[..|lines| - 1], sep, tokenize, parse);
      var last := ParseRow(tokenize(lines[|lines| - 1], sep), parse);
      if prev.None? || last.None? then None else Some(prev.value + [last.value])
  }

  /** The lines parse exactly when each does. */
  lemma {:induction false} ParseLinesSome(lines: seq<string>, sep: char, tokenize: (string, char) -> seq<string>,
                                          parse: string -> Option<Double>)
    ensures ParseLines(lines, sep, tokenize, parse).Some? <==>
              forall i :: 0 <= i < |lines| ==> ParseRow(tokenize(lines[i], sep), parse).Some?
  {
    if lines != [] {
      ParseLinesSome(lines[..|lines| - 1], sep, tokenize, parse);
    }
  }

  /** When the lines parse, row `i` is line `i`'s row. */
  lemma {:induction false} ParseLinesRows(lines: seq<string>, sep: char, tokenize: (string, char) -> seq<string>,
                                          parse: string -> Option<Double>)
    requires ParseLines(lines, sep, tokenize, parse).Some?
    ensures forall i :: 0 <= i < |lines| ==>
              ParseRow(tokenize(lines[i], sep), parse).Some? &&
              ParseLines(lines, sep, tokenize, parse).value[i] == ParseRow(tokenize(lines[i], sep), parse).value
  {
    if lines != [] {
      ParseLinesRows(lines[..|lines| - 1], sep, tokenize, parse);
    }
  }

  /** Parsing one more token extends the row by its value, or fails. */
  lemma RowStep(tokens: seq<string>, parse: string -> Option<Double>, j: nat)
    requires j < |tokens|
    ensures ParseRow(tokens[..j + 1], parse) ==
      (var prev := ParseRow(tokens[..j], parse);
       var last := Token(tokens[j], parse);
       if prev.None? || last.None? then None else Some(prev.value + [last.value]))
  {
    assert tokens[..j + 1][..j] == tokens[..j];
  }

  /** Parsing one more line extends the rows by its row, or fails. */
  lemma LineStep(lines: seq<string>, sep: char, tokenize: (string, char) -> seq<string>, parse: string -> Option<Double>, k: nat)
    requires k < |lines|
    ensures ParseLines(lines[..k + 1], sep, tokenize, parse) ==
      (var prev := ParseLines(lines[..k], sep, tokenize, parse);
       var last := ParseRow(tokenize(lines[k], sep), parse);
       if prev.None? || last.None? then None else Some(prev.value + [last.value]))
  {
    assert lines[..k + 1][..k] == lines[..k];
  }

  /** A token that does not parse spoils its whole row. */
  lemma {:induction false} RowFailureStays(tokens: seq<string>, parse: string -> Option<Double>, j: nat)
    requires j <= |tokens| && ParseRow(tokens[..j], parse).None?
    ensures ParseRow(tokens, parse).None?
    decreases |tokens| - j
  {
    if j < |tokens| {
      RowStep(tokens, parse, j);
      RowFailureStays(tokens, parse, j + 1);
    } else {
      assert tokens[..j] == tokens;
    }
  }

  /** A line that does not parse spoils the whole input. */
  lemma {:induction false} LineFailureStays(lines: seq<string>, sep: char, tokenize: (string, char) -> seq<string>,
                                            parse: string -> Option<Double>, k: nat)
    requires k <= |lines| && ParseLines(lines[..k], sep, tokenize, parse).None?
    ensures ParseLines(lines, sep, tokenize, parse).None?
    decreases |lines| - k
  {
    if k < |lines| {
      LineStep(lines, sep, tokenize, parse, k);
      LineFailureStays(lines, sep, tokenize, parse, k + 1);
    } else {
      assert lines[..k] == lines;
    }
  }

  /**
   * The rows read from a stream of `lines` that ends in a failure when
   * `fails` holds: nothing on a read failure or an unparsable token, and
   * otherwise one row per line.
   */
  function ReadRows(lines: seq<string>, fails: bool, decimalSeparator: char, tokenize: (string, char) -> seq<string>,
                    parse: string -> Option<Double>): Option<seq<seq<Double>>> {
    if fails then None else ParseLines(lines, Separator(decimalSeparator), tokenize, parse)
  }

  /** No rows come back exactly when reading fails or some token of some line does not parse. */
  lemma ReadRowsNone(lines: seq<string>, fails: bool, decimalSeparator: char, tokenize: (string, char) -> seq<string>,
                     parse: string -> Option<Double>)
    ensures ReadRows(lines, fails, decimalSeparator, tokenize, parse).None? <==>
      fails || exists i, j :: 0 <= i < |lines| && 0 <= j < |tokenize(lines[i], Separator(decimalSeparator))| &&
                              Token(tokenize(lines[i], Separator(decimalSeparator))[j], parse).None?
  {
    var sep := Separator(decimalSeparator);
    ParseLinesSome(lines, sep, tokenize, parse);
    forall i | 0 <= i < |lines| {
      ParseRowValues(tokenize(lines[i], sep), parse);
    }
  }

  /** Rows read successfully are the lines' tokens, value by value: NaN for an empty token, the parsed value otherwise. */
  lemma ReadRowsValues(lines: seq<string>, decimalSeparator: char, tokenize: (string, char) -> seq<string>,
                       parse: string -> Option<Double>, i: nat, j: nat)
    requires ReadRows(lines, false, decimalSeparator, tokenize, parse).Some?
    requires i < |lines| && j < |tokenize(lines[i], Separator(decimalSeparator))|
    ensures var rows := ReadRows(lines, false, decimalSeparator, tokenize, parse).value;
            var t := tokenize(lines[i], Separator(decimalSeparator))[j];
      && |rows| == |lines|
      && |rows[i]| == |tokenize(lines[i], Separator(decimalSeparator))|
      && (Trim(t) == [] ==> rows[i][j] == NaN)
      && (Trim(t) != [] ==> parse(Trim(t)) == Some(rows[i][j]))
  {
    var sep := Separator(decimalSeparator);
    ParseLinesRows(lines, sep, tokenize, parse);
    ParseRowValues(tokenize(lines[i], sep), parse);
  }

  // ---------------------------------------------------------------------------
  // The matrix

  /** The number of columns: the length of the longest row, 0 without rows. */
  function Width(rows: seq<seq<Double>>): nat {
    if rows == [] then 0
    else
      var w := Width(rows[..|rows| - 1]);
      if |rows[|rows| - 1]| > w then |rows[|rows| - 1]| else w
  }

  /** Every row fits in the width, and some row fills it unless there are no rows. */
  lemma {:induction false} WidthIsLongest(rows: seq<seq<Double>>)
    ensures forall i :: 0 <= i < |rows| ==> |rows[i]| <= Width(rows)
    ensures rows == [] ==> Width(rows) == 0
    ensures rows != [] ==> exists i :: 0 <= i < |rows| && |rows[i]| == Width(rows)
  {
    if rows != [] {
      var front := rows[..|rows| - 1];
      WidthIsLongest(front);
      if |rows[|rows| - 1]| <= Width(front) && front != [] {
        var i :| 0 <= i < |front| && |front[i]| == Width(front);
        assert rows[i] == front[i];
      }
    }
  }

  /** The cell at row `i`, column `j` of the padded matrix: the row's value, or NaN past the row's end. */
  function CellAt(rows: seq<seq<Double>>, i: nat, j: nat): Double
    requires i < |rows|
  {
    if j < |rows[i]| then rows[i][j] else NaN
  }

  /** A stream of lines, possibly ending in an I/O failure instead of a clean end. */
  class LineReader {
    /** The lines still to be read. */
    var pending: seq<string>
    /** Whether reading past the last line fails. */
    var fails: bool

    constructor (lines: seq<string>, fails: bool)
      ensures pending == lines && this.fails == fails
    {
      pending := lines;
      this.fails := fails;
    }

    /** Gives the next line, or the end of the stream, or the failure. */
    method ReadLine() returns (r: ReadResult)
      modifies this
      ensures fails == old(fails)
      ensures old(pending) != [] ==> r == GotLine(old(pending)[0]) && pending == old(pending)[1..]
      ensures old(pending) == [] ==> pending == [] && r == (if fails then IoError else EndOfStream)
    {
      if pending != [] {
        r := GotLine(pending[0]);
        pending := pending[1..];
      } else {
        r := if fails then IoError else EndOfStream;
      }
    }
  }

  /**
   * Reads the whole stream into a matrix: `null` when reading fails or a token
   * does not parse; otherwise one row per line and as many columns as the
   * longest row, with NaN past the end of each shorter row. A matrix is only
   * returned once the whole stream has been read.
   */
  method ReadMatrix(reader: LineReader, decimalSeparator: char, tokenize: (string, char) -> seq<string>,
                    parse: string -> Option<Double>) returns (m: array2?<Double>)
    modifies reader
    ensures reader.fails == old(reader.fails)
    ensures m != null ==> reader.pending == []
    ensures var rows := ReadRows(old(reader.pending), old(reader.fails), decimalSeparator, tokenize, parse);
      && (m == null <==> rows.None?)
      && (m != null ==>
            && fresh(m)
            && m.Length0 == |rows.value|
            && m.Length1 == Width(rows.value)
            && forall i, j :: 0 <= i < m.Length0 && 0 <= j < m.Length1 ==> m[i, j] == CellAt(rows.value, i, j))
  {
    var rows := ReadLines(reader, decimalSeparator, tokenize, parse);
    if rows.None? {
      return null;
    }
    var data := rows.value;
    var ncols := MaxWidth(data);
    m := new Double[|data|, ncols]((i, j) => Num(0.0));
    FillNaN(m);
    CopyRows(m, data);
  }

  /**
   * The read loop: one parsed row per line until the end of the stream;
   * `None` as soon as a token does not parse or when the stream fails.
   */
  method ReadLines(reader: LineReader, decimalSeparator: char, tokenize: (string, char) -> seq<string>,
                   parse: string -> Option<Double>) returns (rows: Option<seq<seq<Double>>>)
    modifies reader
    ensures reader.fails == old(reader.fails)
    ensures rows.Some? ==> reader.pending == []
    ensures rows == ReadRows(old(reader.pending), old(reader.fails), decimalSeparator, tokenize, parse)
  {
    var comma := Separator(decimalSeparator);
    ghost var lines := reader.pending;
    ghost var fails := reader.fails;
    var data: seq<seq<Double>> := [];
    ghost var k := 0;
    var s := reader.ReadLine();
    while s.GotLine?
      invariant reader.fails == fails
      invariant s.GotLine? ==> 0 < k + 1 <= |lines| && s.line == lines[k] && reader.pending == lines[k + 1..]
      invariant !s.GotLine? ==> k == |lines| && reader.pending == [] && (s == IoError <==> fails)
      invariant ParseLines(lines[..k], comma, tokenize, parse) == Some(data)
      decreases |reader.pending| + (if s.GotLine? then 1 else 0)
    {
      var row := ParseTokens(tokenize(s.line, comma), parse);
      LineStep(lines, comma, tokenize, parse, k);
      if row.None? {
        LineFailureStays(lines, comma, tokenize, parse, k + 1);
        return None;
      }
      data := data + [row.value];
      k := k + 1;
      s := reader.ReadLine();
    }
    assert lines[..k] == lines;
    if s == IoError {
      return None;
    }
    return Some(data);
  }

  /** The column count: the length of the longest row, found by one pass over the rows. */
  method MaxWidth(data: seq<seq<Double>>) returns (ncols: nat)
    ensures ncols == Width(data)
    ensures forall i :: 0 <= i < |data| ==> |data[i]| <= ncols
    ensures data == [] ==> ncols == 0
    ensures data != [] ==> exists i :: 0 <= i < |data| && |data[i]| == ncols
  {
    ncols := 0;
    for i := 0 to |data|
      invariant ncols == Width(data[..i])
    {
      assert data[..i + 1][..i] == data[..i];
      if |data[i]| > ncols {
        ncols := |data[i]|;
      }
    }
    assert data[..|data|] == data;
    WidthIsLongest(data);
  }

  /** The values of a line's tokens, read one token at a time; `None` as soon as one does not parse. */
  method ParseTokens(tokens: seq<string>, parse: string -> Option<Double>) returns (row: Option<seq<Double>>)
    ensures row == ParseRow(tokens, parse)
  {
    var values := [];
    var j := 0;
    while j < |tokens|
      invariant 0 <= j <= |tokens|
      invariant ParseRow(tokens[..j], parse) == Some(values)
    {
      RowStep(tokens, parse, j);
      var n := Trim(tokens[j]);
      if n == [] {
        values := values + [NaN];
      } else {
        var x := parse(n);
        if x.None? {
          RowFailureStays(tokens, parse, j + 1);
          return None;
        }
        values := values + [x.value];
      }
      j := j + 1;
    }
    assert tokens[..j] == tokens;
    return Some(values);
  }

  /** Sets every cell of `m` to NaN. */
  method FillNaN(m: array2<Double>)
    modifies m
    ensures forall i, j :: 0 <= i < m.Length0 && 0 <= j < m.Length1 ==> m[i, j] == NaN
  {
    for i := 0 to m.Length0
      invariant forall r, c :: 0 <= r < i && 0 <= c < m.Length1 ==> m[r, c] == NaN
    {
      for j := 0 to m.Length1
        invariant forall r, c :: 0 <= r < i && 0 <= c < m.Length1 ==> m[r, c] == NaN
        invariant forall c :: 0 <= c < j ==> m[i, c] == NaN
      {
        m[i, j] := NaN;
      }
    }
  }

  /** Copies each row of `data` into the start of the same row of the NaN-filled `m`. */
  method CopyRows(m: array2<Double>, data: seq<seq<Double>>)
    requires m.Length0 == |data| && forall i :: 0 <= i < |data| ==> |data[i]| <= m.Length1
    requires forall i, j :: 0 <= i < m.Length0 && 0 <= j < m.Length1 ==> m[i, j] == NaN
    modifies m
    ensures forall i, j :: 0 <= i < m.Length0 && 0 <= j < m.Length1 ==> m[i, j] == CellAt(data, i, j)
  {
    for i := 0 to m.Length0
      invariant forall r, c :: 0 <= r < m.Length0 && 0 <= c < m.Length1 ==> m[r, c] == if r < i then CellAt(data, r, c) else NaN
    {
      for j := 0 to |data[i]|
        invariant forall r, c :: 0 <= r < m.Length0 && 0 <= c < m.Length1 ==>
                    m[r, c] == if r < i || (r == i && c < j) then CellAt(data, r, c) else NaN
      {
        m[i, j] := data[i][j];
      }
    }
  }
}
