/** Output file names and the column layout of `lists_to_file`
    (output_utils.py). The file itself is not modelled: `ListsToFile` yields
    the lines it would write. */
module OutputUtils {
  import opened Wrappers
  import opened Text

  /** Path of the fixed-alpha results of system `syst`: in `output/`, with the
      system name followed by `_fixedalpha.txt`. */
  function FaName(syst: string): (name: string)
    ensures |name| == |syst| + 22
    ensures name[..7] == "output/" && name[7..|name| - 15] == syst
    ensures name[|name| - 15..] == "_fixedalpha.txt"
  {
    "output/" + syst + "_fixedalpha.txt"
  }

  /** Path of the convergence trajectory of system `syst`: in `output/`, with
      the system name followed by `_convergence.txt`. */
  function ConvName(syst: string): (name: string)
    ensures |name| == |syst| + 23
    ensures name[..7] == "output/" && name[7..|name| - 16] == syst
    ensures name[|name| - 16..] == "_convergence.txt"
  {
    "output/" + syst + "_convergence.txt"
  }

  /** Different systems never share a file. */
  lemma {:induction false} FileNamesInjective(a: string, b: string)
    ensures FaName(a) == FaName(b) ==> a == b
    ensures ConvName(a) == ConvName(b) ==> a == b
  {
    if FaName(a) == FaName(b) {
      assert a == FaName(a)[7..|FaName(a)| - 15];
    }
    if ConvName(a) == ConvName(b) {
      assert a == ConvName(a)[7..|ConvName(a)| - 16];
    }
  }

  /** A fixed-alpha file never overwrites a convergence file, whatever the two
      system names: the fifth character from the end is 'a' in one, 'e' in the other. */
  lemma {:induction false} FixedAlphaNeverConvergence(a: string, b: string)
    ensures FaName(a) != ConvName(b)
  {
    var fa, conv := FaName(a), ConvName(b);
    assert fa[|fa| - 5] == 'a';
    assert conv[|conv| - 5] == 'e';
  }

  /** The headers used when none are given: `col_0` ... `col_{k-1}`, one per
      column, none holding a space or a line break. */
  function DefaultHeaders(k: nat): (h: seq<string>)
    ensures |h| == k
    ensures forall i :: 0 <= i < k ==> ' ' !in h[i] && '\n' !in h[i]
  {
    seq(k, i requires 0 <= i < k => "col_" + NatToDecimal(i))
  }

  /** Default header `i` is `col_` followed by digits that read back as `i`;
      so the default headers are pairwise distinct. */
  lemma {:induction false} DefaultHeadersReadBack(k: nat)
    ensures var h := DefaultHeaders(k);
      forall i :: 0 <= i < k ==>
        |h[i]| > 4 && h[i][..4] == "col_" && AllDigits(h[i][4..]) && DecimalValue(h[i][4..]) == i
    ensures var h := DefaultHeaders(k);
      forall i, j :: 0 <= i < j < k ==> h[i] != h[j]
  {
    var h := DefaultHeaders(k);
    forall i | 0 <= i < k
      ensures |h[i]| > 4 && h[i][..4] == "col_" && AllDigits(h[i][4..]) && DecimalValue(h[i][4..]) == i
    {
      assert h[i][4..] == NatToDecimal(i);
      DecimalRoundTrip(i);
    }
    forall i, j | 0 <= i < j < k ensures h[i] != h[j] {
      assert h[i][4..] != h[j][4..];
    }
  }

  /** Length of the longest column. */
  function MaxLen<T>(columns: seq<seq<T>>): (m: nat)
    requires |columns| >= 1
    ensures forall j :: 0 <= j < |columns| ==> |columns[j]| <= m
    ensures exists j :: 0 <= j < |columns| && |columns[j]| == m
  {
    if |columns| == 1 then |columns[0]|
    else
      var rest := MaxLen(columns[1..]);
      if |columns[0]| >= rest then |columns[0]| else rest
  }

  /** Fields of data row `i`: one per column, the column's entry at `i`, or ''
      past its end. */
  function Row<T>(columns: seq<seq<T>>, i: nat, show: T -> string): (fields: seq<string>)
    ensures |fields| == |columns|
    ensures forall j :: 0 <= j < |columns| && i < |columns[j]| ==> fields[j] == show(columns[j][i])
    ensures forall j :: 0 <= j < |columns| && |columns[j]| <= i ==> fields[j] == ""
  {
    seq(|columns|, j requires 0 <= j < |columns| => if i < |columns[j]| then show(columns[j][i]) else "")
  }

  /** The headers written: those given, or the default ones. */
  function HeadersOrDefault(headers: Option<seq<string>>, k: nat): (h: seq<string>)
    ensures headers.Some? ==> h == headers.value
    ensures headers.None? ==> |h| == k && NoLineBreaks(h)
  {
    if headers.None? then DefaultHeaders(k) else headers.value
  }

  /** The header line: the headers joined by spaces, then a newline. */
  function HeaderLine(headers: Option<seq<string>>, k: nat): (line: string)
    ensures |line| >= 1 && line[|line| - 1] == '\n'
    ensures line[..|line| - 1] == Join(HeadersOrDefault(headers, k))
  {
    Join(HeadersOrDefault(headers, k)) + "\n"
  }

  /** Data line `i`: the fields of row `i` joined by spaces, then a newline. */
  function DataLine<T>(columns: seq<seq<T>>, i: nat, show: T -> string): (line: string)
    ensures |line| >= 1 && line[|line| - 1] == '\n'
    ensures line[..|line| - 1] == Join(Row(columns, i, show))
  {
    Join(Row(columns, i, show)) + "\n"
  }

  /** Data lines `0` to `n - 1`, in order. */
  function DataLines<T>(columns: seq<seq<T>>, n: nat, show: T -> string): (lines: seq<string>)
    ensures |lines| == n
  {
    if n == 0 then [] else DataLines(columns, n - 1, show) + [DataLine(columns, n - 1, show)]
  }

  lemma {:induction false} DataLinesAt<T>(columns: seq<seq<T>>, n: nat, show: T -> string, i: nat)
    requires i < n
    ensures DataLines(columns, n, show)[i] == DataLine(columns, i, show)
  {
    if i < n - 1 {
      DataLinesAt(columns, n - 1, show, i);
    }
  }

  /** The lines `lists_to_file` writes, or None when there are no columns and
      it returns before opening the file. `show` is Python's `str`. Otherwise
      there is one header line and one line per index of the longest column. */
  function TableLines<T>(columns: seq<seq<T>>, headers: Option<seq<string>>, show: T -> string): (r: Option<seq<string>>)
    ensures r.None? <==> |columns| == 0
    ensures r.Some? ==> |r.value| == 1 + MaxLen(columns)
  {
    if |columns| == 0 then None
    else
      Some([HeaderLine(headers, |columns|)] + DataLines(columns, MaxLen(columns), show))
  }

  /** The first written line is the header line. */
  lemma {:induction false} TableHeaderLine<T>(columns: seq<seq<T>>, headers: Option<seq<string>>, show: T -> string)
    requires |columns| >= 1
    ensures TableLines(columns, headers, show).value[0] == HeaderLine(headers, |columns|)
  {
    assert TableLines(columns, headers, show).value
      == [HeaderLine(headers, |columns|)] + DataLines(columns, MaxLen(columns), show);
  }

  /** Written line `k >= 1` is the data line of row `k - 1`. */
  lemma {:induction false} TableDataLine<T>(columns: seq<seq<T>>, headers: Option<seq<string>>, show: T -> string, k: nat)
    requires |columns| >= 1
    requires 1 <= k <= MaxLen(columns)
    ensures TableLines(columns, headers, show).value[k] == DataLine(columns, k - 1, show)
  {
    var n := MaxLen(columns);
    DataLinesAt(columns, n, show, k - 1);
  }

  /** Every written line ends in a newline. */
  lemma {:induction false} TableLinesEndInNewline<T>(columns: seq<seq<T>>, headers: Option<seq<string>>, show: T -> string, k: nat)
    requires |columns| >= 1
    requires k <= MaxLen(columns)
    ensures var line := TableLines(columns, headers, show).value[k];
      |line| >= 1 && line[|line| - 1] == '\n'
  {
    if k == 0 {
      TableHeaderLine(columns, headers, show);
    } else {
      TableDataLine(columns, headers, show, k);
    }
  }

  /** Every written line holds exactly one line break, at its end, provided
      no rendered entry and no given header holds one. */
  lemma {:induction false} OneLineBreakPerLine<T>(columns: seq<seq<T>>, headers: Option<seq<string>>, show: T -> string, k: nat)
    requires |columns| >= 1
    requires k <= MaxLen(columns)
    requires forall j, i :: 0 <= j < |columns| && 0 <= i < |columns[j]| ==> '\n' !in show(columns[j][i])
    requires headers.Some? ==> forall i :: 0 <= i < |headers.value| ==> '\n' !in headers.value[i]
    ensures var line := TableLines(columns, headers, show).value[k];
      |line| >= 1 && line[|line| - 1] == '\n' && '\n' !in line[..|line| - 1]
  {
    if k == 0 {
      TableHeaderLine(columns, headers, show);
      var hs := HeadersOrDefault(headers, |columns|);
      assert NoLineBreaks(hs);
      JoinAddsNoLineBreak(hs);
    } else {
      TableDataLine(columns, headers, show, k);
      var row := Row(columns, k - 1, show);
      assert NoLineBreaks(row) by {
        forall j | 0 <= j < |row| ensures '\n' !in row[j] {
          if k - 1 < |columns[j]| {
            assert row[j] == show(columns[j][k - 1]);
          }
        }
      }
      JoinAddsNoLineBreak(row);
    }
  }

  /** Data line `k` reads back, split at single spaces, as exactly one field per
      column: the column's entry at row `k - 1`, or '' when the column is
      shorter; provided no rendered entry contains a space. */
  lemma {:induction false} DataLineFields<T>(columns: seq<seq<T>>, headers: Option<seq<string>>, show: T -> string, k: nat)
    requires |columns| >= 1
    requires 1 <= k <= MaxLen(columns)
    requires forall j, i :: 0 <= j < |columns| && 0 <= i < |columns[j]| ==> ' ' !in show(columns[j][i])
    ensures var line := TableLines(columns, headers, show).value[k];
      |line| >= 1
      && var fields := Split(line[..|line| - 1]);
      |fields| == |columns|
      && forall j :: 0 <= j < |columns| ==>
           fields[j] == if k - 1 < |columns[j]| then show(columns[j][k - 1]) else ""
  {
    var row := Row(columns, k - 1, show);
    TableDataLine(columns, headers, show, k);
    SplitJoinRoundTrip(row);
  }

  /** The header line reads back as the default `col_i` names, one per column,
      or as the given headers when they are non-empty single words. */
  lemma {:induction false} HeaderLineFields<T>(columns: seq<seq<T>>, headers: Option<seq<string>>, show: T -> string)
    requires |columns| >= 1
    requires headers.Some? ==> |headers.value| >= 1 && forall k :: 0 <= k < |headers.value| ==> ' ' !in headers.value[k]
    ensures var line := TableLines(columns, headers, show).value[0];
      |line| >= 1 && Split(line[..|line| - 1]) == if headers.None? then DefaultHeaders(|columns|) else headers.value
  {
    var hs := HeadersOrDefault(headers, |columns|);
    TableHeaderLine(columns, headers, show);
    SplitJoinRoundTrip(hs);
  }

  /** The column writer: the lines written to the file, header first and then
      one row per index of the longest column. */
  method ListsToFile<T>(columns: seq<seq<T>>, headers: Option<seq<string>>, show: T -> string) returns (written: Option<seq<string>>)
    ensures written == TableLines(columns, headers, show)
    ensures written.Some? ==> |written.value| == 1 + MaxLen(columns)
  {
    if |columns| == 0 {
      return None;
    }
    var maxLength := MaxLen(columns);
    var hs := HeadersOrDefault(headers, |columns|);
    var header := Join(hs) + "\n";
    var lines := [header];
    for i := 0 to maxLength
      invariant lines == [header] + DataLines(columns, i, show)
    {
      var row := Row(columns, i, show);
      lines := lines + [Join(row) + "\n"];
    }
    written := Some(lines);
  }
}
