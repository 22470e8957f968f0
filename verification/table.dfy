/** The fixed-width instance table printed by `info` and `wait`
    (the `instancesListTemplate` of eureka-cli.go). Characters are sequence
    elements; the template engine's rune handling is not modelled. */
module Table {
  import opened Optional
  import opened Instances
  import opened Decimal

  const AppNameWidth: nat := 20
  const StatusWidth: nat := 10
  const IdWidth: nat := 35
  const IpWidth: nat := 18
  const PortHeaderWidth: nat := 18

  /** Characters before the port column of a row. */
  const PortOffset: nat := AppNameWidth + StatusWidth + IdWidth + IpWidth

  /** Every line of the table ends with a space and a newline. */
  const LineEnd: string := " \n"

  function Spaces(n: nat): (s: string)
    ensures |s| == n
    ensures forall i :: 0 <= i < n ==> s[i] == ' '
  {
    if n == 0 then [] else Spaces(n - 1) + [' ']
  }

  /** The `%-W.Ws` verb: keep at most `w` characters of `s`, then pad on the
      right with spaces up to exactly `w`. */
  function PadTrunc(s: string, w: nat): (r: string)
    ensures |r| == w
    ensures forall i :: 0 <= i < w ==> r[i] == if i < |s| then s[i] else ' '
  {
    if |s| >= w then s[..w] else s + Spaces(w - |s|)
  }

  /** Drops trailing spaces: how a reader of the table recovers a cell's value. */
  function TrimRight(s: string): (r: string)
    ensures |r| <= |s| && r == s[..|r|]
    ensures |r| == 0 || r[|r| - 1] != ' '
    ensures forall i :: |r| <= i < |s| ==> s[i] == ' '
  {
    if |s| > 0 && s[|s| - 1] == ' ' then TrimRight(s[..|s| - 1]) else s
  }

  /** A value that a column of width `w` shows without loss. */
  predicate FitsCell(s: string, w: nat) {
    |s| <= w && (|s| == 0 || s[|s| - 1] != ' ')
  }

  predicate FitsRow(inst: Instance) {
    && FitsCell(inst.appName, AppNameWidth)
    && FitsCell(inst.status, StatusWidth)
    && FitsCell(inst.id, IdWidth)
    && FitsCell(inst.ip, IpWidth)
  }

  const Header: string :=
    PadTrunc("APP NAME", AppNameWidth) + PadTrunc("STATUS", StatusWidth) + PadTrunc("ID", IdWidth)
    + PadTrunc("IP ADDRESS", IpWidth) + PadTrunc("PORT", PortHeaderWidth) + LineEnd

  /** One table line for one instance: four fixed-width string columns at
      fixed offsets, then the port printed with `%d`, unpadded, then the line end. */
  function Row(inst: Instance): (r: string)
    ensures |r| == PortOffset + |ShowInt(inst.port)| + |LineEnd|
    ensures r[..AppNameWidth] == PadTrunc(inst.appName, AppNameWidth)
    ensures r[AppNameWidth..AppNameWidth + StatusWidth] == PadTrunc(inst.status, StatusWidth)
    ensures r[AppNameWidth + StatusWidth..AppNameWidth + StatusWidth + IdWidth] == PadTrunc(inst.id, IdWidth)
    ensures r[AppNameWidth + StatusWidth + IdWidth..PortOffset] == PadTrunc(inst.ip, IpWidth)
    ensures r[PortOffset..|r| - |LineEnd|] == ShowInt(inst.port)
    ensures r[|r| - |LineEnd|..] == LineEnd
  {
    PadTrunc(inst.appName, AppNameWidth) + PadTrunc(inst.status, StatusWidth)
    + PadTrunc(inst.id, IdWidth) + PadTrunc(inst.ip, IpWidth) + ShowInt(inst.port) + LineEnd
  }

  /** The lines of a list, one per instance, in order. */
  function Lines(xs: seq<Instance>): (ls: seq<string>)
    ensures |ls| == |xs|
    ensures forall k :: 0 <= k < |xs| ==> ls[k] == Row(xs[k])
  {
    seq(|xs|, k requires 0 <= k < |xs| => Row(xs[k]))
  }

  /** Lines written one after another. */
  function Concat<T>(parts: seq<seq<T>>): seq<T> {
    if |parts| == 0 then [] else parts[0] + Concat(parts[1..])
  }

  /** The body of the table: every instance's row, in order. */
  function Rows(xs: seq<Instance>): string {
    Concat(Lines(xs))
  }

  /** The whole template output: the header line, then the instances' rows. */
  function Render(xs: seq<Instance>): (r: string)
    ensures |r| >= |Header| && r[..|Header|] == Header
    ensures |xs| == 0 ==> r == Header
  {
    Header + Rows(xs)
  }

  /** Reads one table line back into an instance, trimming the padding of each
      string column and parsing the port; None when the line has no such shape. */
  function DecodeRow(line: string): Option<Instance> {
    if |line| < PortOffset + |LineEnd| || line[|line| - |LineEnd|..] != LineEnd then None
    else
      match ParseInt(line[PortOffset..|line| - |LineEnd|])
      case None => None
      case Some(port) =>
        Some(Instance(
          TrimRight(line[..AppNameWidth]),
          TrimRight(line[AppNameWidth + StatusWidth..AppNameWidth + StatusWidth + IdWidth]),
          TrimRight(line[AppNameWidth..AppNameWidth + StatusWidth]),
          TrimRight(line[AppNameWidth + StatusWidth + IdWidth..PortOffset]),
          port))
  }

  /** Padding never hides a value: trailing spaces are exactly what was added. */
  lemma {:induction false} TrimPadding(s: string, k: nat)
    requires |s| == 0 || s[|s| - 1] != ' '
    ensures TrimRight(s + Spaces(k)) == s
  {
    if k > 0 {
      assert s + Spaces(k) == (s + Spaces(k - 1)) + [' '];
      assert (s + Spaces(k))[..|s| + k - 1] == s + Spaces(k - 1);
      TrimPadding(s, k - 1);
    } else {
      assert s + Spaces(0) == s;
    }
  }

  /** A value that fits its column is recovered exactly from the padded cell. */
  lemma {:induction false} PadTruncRecovers(s: string, w: nat)
    requires FitsCell(s, w)
    ensures TrimRight(PadTrunc(s, w)) == s
  {
  }

  /** Every row splits back into its columns: the string cells come back as
      the trimmed fixed-width cells and the port as the printed integer. */
  lemma {:induction false} RowDecodes(inst: Instance)
    ensures DecodeRow(Row(inst)) == Some(Instance(
      TrimRight(PadTrunc(inst.appName, AppNameWidth)),
      TrimRight(PadTrunc(inst.id, IdWidth)),
      TrimRight(PadTrunc(inst.status, StatusWidth)),
      TrimRight(PadTrunc(inst.ip, IpWidth)),
      inst.port))
  {
    ParseShowInt(inst.port);
  }

  /** Round trip: an instance whose strings fit their columns is read back unchanged. */
  lemma {:induction false} RowRoundTrip(inst: Instance)
    requires FitsRow(inst)
    ensures DecodeRow(Row(inst)) == Some(inst)
  {
    RowDecodes(inst);
    PadTruncRecovers(inst.appName, AppNameWidth);
    PadTruncRecovers(inst.status, StatusWidth);
    PadTruncRecovers(inst.id, IdWidth);
    PadTruncRecovers(inst.ip, IpWidth);
  }

  lemma {:induction false} ConcatAppend<T>(a: seq<seq<T>>, b: seq<seq<T>>)
    ensures Concat(a + b) == Concat(a) + Concat(b)
  {
    if |a| == 0 {
      assert a + b == b;
    } else {
      assert (a + b)[1..] == a[1..] + b;
      ConcatAppend(a[1..], b);
    }
  }

  lemma {:induction false} ConcatCons<T>(x: seq<T>, rest: seq<seq<T>>)
    ensures Concat([x] + rest) == x + Concat(rest)
  {
  }

  lemma {:induction false} ConcatAt<T>(parts: seq<seq<T>>, k: nat)
    requires k < |parts|
    ensures Concat(parts) == Concat(parts[..k]) + (parts[k] + Concat(parts[k + 1..]))
  {
    var before, after := parts[..k], parts[k + 1..];
    assert parts == before + ([parts[k]] + after);
    ConcatAppend(before, [parts[k]] + after);
    ConcatCons(parts[k], after);
  }

  /** Rendering distributes over concatenation of the instance list. */
  lemma {:induction false} RowsAppend(xs: seq<Instance>, ys: seq<Instance>)
    ensures Rows(xs + ys) == Rows(xs) + Rows(ys)
  {
    assert Lines(xs + ys) == Lines(xs) + Lines(ys);
    ConcatAppend(Lines(xs), Lines(ys));
  }

  /** One line per instance, in input order: the rows of the instances before
      `k`, then the row of instance `k`, then the rows of those after it. */
  lemma {:induction false} RowAt(xs: seq<Instance>, k: nat)
    requires k < |xs|
    ensures Rows(xs) == Rows(xs[..k]) + (Row(xs[k]) + Rows(xs[k + 1..]))
  {
    ConcatAt(Lines(xs), k);
    assert Lines(xs)[..k] == Lines(xs[..k]);
    assert Lines(xs)[k + 1..] == Lines(xs[k + 1..]);
  }

  /** A single found instance prints as the header followed by its one row. */
  lemma RenderSingle(inst: Instance)
    ensures Render([inst]) == Header + Row(inst)
  {
    assert Lines([inst]) == [Row(inst)];
    assert Concat([Row(inst)]) == Row(inst) + Concat([]);
  }

  /** The header line, spelled out: the five column titles at widths 20, 10,
      35, 18 and 18, then the line end. */
  lemma HeaderText()
    ensures |Header| == 103
    ensures Header == "APP NAME            " + "STATUS    " + "ID                                 "
      + "IP ADDRESS        " + "PORT              " + " \n"
  {
    assert PadTrunc("APP NAME", AppNameWidth) == "APP NAME            ";
    assert PadTrunc("STATUS", StatusWidth) == "STATUS    ";
    assert PadTrunc("ID", IdWidth) == "ID                                 ";
    assert PadTrunc("IP ADDRESS", IpWidth) == "IP ADDRESS        ";
    assert PadTrunc("PORT", PortHeaderWidth) == "PORT              ";
  }

}
