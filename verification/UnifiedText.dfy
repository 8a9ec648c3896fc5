/** The textual half of the unified diff: splitting, printing, and a reader of
    what is printed.  `Generate` is specified through that reader, so a wrong
    count, a lost terminator or a misplaced marker would show up as a different
    pair of files. */
module UnifiedText {
  import opened Decimals
  import opened Options
  import opened Sequences
  import opened UnifiedLcs

  const DEFAULT_NAME := "/dev/universe"
  const NAME_SUFFIX := " 9999-99-99"
  const NO_NEWLINE := "\\ No newline at end of file"

  // ---------------------------------------------------------------------
  // Lines
  // ---------------------------------------------------------------------

  /** The first occurrence of `c`, or the length of `s` when there is none. */
  function IndexOf(s: string, c: char): (i: nat)
    ensures i <= |s| && c !in s[..i]
    ensures i < |s| ==> s[i] == c
  {
    if s == [] || s[0] == c then 0
    else
      var i := IndexOf(s[1..], c);
      assert s[..i + 1] == [s[0]] + s[1..][..i];
      i + 1
  }

  lemma {:induction false} IndexOfConcat(t: string, c: char, rest: string)
    requires c !in t
    ensures IndexOf(t + [c] + rest, c) == |t|
  {
    var s := t + [c] + rest;
    if t == "" {
    } else {
      IndexOfConcat(t[1..], c, rest);
      assert s[1..] == t[1..] + [c] + rest;
    }
  }

  function Lines(s: string): (lines: seq<Line>)
    decreases |s|
  {
    if s == "" then []
    else
      var i := IndexOf(s, '\n');
      if i == |s| then [Line(s, false)] else [Line(s[..i], true)] + Lines(s[i + 1..])
  }

  method SplitLines(text: string) returns (lines: seq<Line>)
    ensures lines == Lines(text)
  {
    lines := [];
    var s := text;
    while s != ""
      invariant Lines(text) == lines + Lines(s)
      decreases |s|
    {
      var i := IndexOf(s, '\n');
      if i == |s| {
        return lines + [Line(s, false)];
      }
      var line, rest := Line(s[..i], true), s[i + 1..];
      AppendAssociates(lines, line, Lines(rest));
      lines := lines + [line];
      s := rest;
    }
  }

  function Terminator(terminated: bool): (s: string) {
    if terminated then "\n" else ""
  }

  function Join(lines: seq<Line>): (s: string) {
    if lines == [] then "" else lines[0].text + Terminator(lines[0].hasNewline) + Join(lines[1..])
  }

  /** Only the last line can lack its terminator. */
  ghost predicate WellFormed(lines: seq<Line>) {
    forall i :: 0 <= i < |lines| ==>
      '\n' !in lines[i].text && (i < |lines| - 1 ==> lines[i].hasNewline)
  }

  lemma JoinCons(l: Line, lines: seq<Line>)
    ensures Join([l] + lines) == l.text + Terminator(l.hasNewline) + Join(lines)
  {
    assert ([l] + lines)[1..] == lines;
  }

  lemma CutAt(s: string, i: nat)
    requires i < |s|
    ensures s == s[..i] + [s[i]] + s[i + 1..]
  {
  }

  lemma {:induction false} LinesLossless(s: string)
    ensures Join(Lines(s)) == s && WellFormed(Lines(s))
    decreases |s|
  {
    if s == "" {
    } else {
      var i := IndexOf(s, '\n');
      if i < |s| {
        LinesLossless(s[i + 1..]);
        JoinCons(Line(s[..i], true), Lines(s[i + 1..]));
        CutAt(s, i);
      }
    }
  }

  method LinesEqual(a: seq<Line>, b: seq<Line>) returns (same: bool)
    ensures same <==> a == b
  {
    if |a| != |b| {
      return false;
    }
    for i := 0 to |a|
      invariant a[..i] == b[..i]
    {
      if a[i] != b[i] {
        return false;
      }
    }
    return true;
  }

  /** Strips every space and tab. */
  function Normalize(s: string): (r: string)
    ensures ' ' !in r && '\t' !in r
  {
    if s == "" then ""
    else if s[0] == ' ' || s[0] == '\t' then Normalize(s[1..])
    else [s[0]] + Normalize(s[1..])
  }

  predicate Inked(c: char) {
    c != ' ' && c != '\t'
  }

  /** Exactly the spaces and tabs go; every other character stays, in its order. */
  lemma {:induction false} NormalizeFilters(s: string)
    ensures Normalize(s) == Filter(s, Inked)
  {
    if s == "" {
    } else {
      NormalizeFilters(s[1..]);
      assert s == [s[0]] + s[1..];
      FilterConcat([s[0]], s[1..], Inked);
      assert Init([s[0]]) == [];
    }
  }

  // ---------------------------------------------------------------------
  // Counts
  // ---------------------------------------------------------------------

  function FormatRange(count: nat): (s: string) {
    if count == 0 then "0,0" else if count == 1 then "1" else "1," + Decimal(count)
  }

  /** "start,count", or "start" alone for a single line. */
  function ReadRange(s: string): (r: Option<(nat, nat)>) {
    var i := IndexOf(s, ',');
    if i == |s| then
      match ReadDecimal(s)
      case None => None
      case Some(start) => Some((start, 1))
    else match ReadDecimal(s[..i])
      case None => None
      case Some(start) =>
        match ReadDecimal(s[i + 1..])
        case None => None
        case Some(count) => Some((start, count))
  }

  lemma CommaSplits(a: string, b: string)
    requires ',' !in a
    ensures var s := a + [','] + b; IndexOf(s, ',') == |a| && s[..|a|] == a && s[|a| + 1..] == b
  {
    IndexOfConcat(a, ',', b);
  }

  lemma ReadPair(a: string, b: string, start: nat, count: nat)
    requires ',' !in a && ReadDecimal(a) == Some(start) && ReadDecimal(b) == Some(count)
    ensures ReadRange(a + [','] + b) == Some((start, count))
  {
    CommaSplits(a, b);
  }

  lemma PairRoundTrip(count: nat)
    ensures ReadRange("1," + Decimal(count)) == Some((1, count))
    ensures ' ' !in "1," + Decimal(count)
  {
    DecimalRoundTrip(count);
    assert ReadDecimal("1") == Some(1);
    ReadPair("1", Decimal(count), 1, count);
    assert "1" + [','] + Decimal(count) == "1," + Decimal(count);
  }

  /** Each of the three shapes reads back as its count, placed at line 1, or at
      line 0 when the side is empty. */
  lemma RangeRoundTrip(count: nat)
    ensures ReadRange(FormatRange(count)) == Some((if count == 0 then 0 else 1, count))
    ensures ' ' !in FormatRange(count)
  {
    if count == 0 {
      assert "0" + [','] + "0" == "0,0";
      IndexOfConcat("0", ',', "0");
      assert "0,0"[..1] == "0" && "0,0"[2..] == "0";
    } else if count == 1 {
      assert ReadDecimal("1") == Some(1);
    } else {
      PairRoundTrip(count);
    }
  }

  // ---------------------------------------------------------------------
  // Records
  // ---------------------------------------------------------------------

  /** One printed line: what happened to it, its text, and whether the input
      terminated it. */
  datatype Record = Record(op: Op, line: Line)

  function Sigil(op: Op): (c: char) {
    match op case Keep => ' ' case Delete => '-' case Insert => '+'
  }

  function PrintRecord(r: Record): (s: string) {
    [Sigil(r.op)] + r.line.text + "\n" + (if r.line.hasNewline then "" else NO_NEWLINE + "\n")
  }

  function PrintRecords(rs: seq<Record>): (s: string) {
    if rs == [] then "" else PrintRecord(rs[0]) + PrintRecords(rs[1..])
  }

  lemma {:induction false} PrintRecordsAppend(rs: seq<Record>, r: Record)
    ensures PrintRecords(rs + [r]) == PrintRecords(rs) + PrintRecord(r)
  {
    if rs == [] {
      assert rs + [r] == [r];
    } else {
      PrintRecordsAppend(rs[1..], r);
      HeadOfConcat(rs, [r]);
      assert (rs + [r])[1..] == rs[1..] + [r];
    }
  }

  function ReadSigil(c: char): (op: Option<Op>) {
    if c == ' ' then Some(Keep) else if c == '-' then Some(Delete) else if c == '+' then Some(Insert) else None
  }

  function HasPrefix(s: string, p: string): (b: bool) {
    |p| <= |s| && s[..|p|] == p
  }

  /** Reads the records of a hunk body; a marker line belongs to the record it
      follows. */
  function ReadRecords(s: string): (rs: Option<seq<Record>>)
    decreases |s|
  {
    if s == "" then Some([])
    else
      var i := IndexOf(s, '\n');
      if i == 0 || i == |s| then None
      else match ReadSigil(s[0])
        case None => None
        case Some(op) =>
          var marked := HasPrefix(s[i + 1..], NO_NEWLINE + "\n");
          var rest := if marked then s[i + 1..][|NO_NEWLINE| + 1..] else s[i + 1..];
          match ReadRecords(rest)
          case None => None
          case Some(rs) => Some([Record(op, Line(s[1..i], !marked))] + rs)
  }

  ghost predicate Printable(rs: seq<Record>) {
    forall i :: 0 <= i < |rs| ==> '\n' !in rs[i].line.text
  }

  lemma RecordHead(r: Record, rest: string)
    requires '\n' !in r.line.text
    ensures var s := PrintRecord(r) + rest;
            var i := IndexOf(s, '\n');
            i == |r.line.text| + 1 < |s| && s[0] == Sigil(r.op) && s[1..i] == r.line.text &&
            s[i + 1..] == (if r.line.hasNewline then "" else NO_NEWLINE + "\n") + rest
  {
    var t := [Sigil(r.op)] + r.line.text;
    var tail := (if r.line.hasNewline then "" else NO_NEWLINE + "\n") + rest;
    var s := PrintRecord(r) + rest;
    assert s == t + ['\n'] + tail;
    IndexOfConcat(t, '\n', tail);
  }

  lemma PrintedStartsWithSigil(rs: seq<Record>)
    ensures !HasPrefix(PrintRecords(rs), NO_NEWLINE + "\n")
  {
    if rs != [] {
      assert PrintRecords(rs)[0] == Sigil(rs[0].op) != NO_NEWLINE[0];
      assert (NO_NEWLINE + "\n")[0] == NO_NEWLINE[0];
    }
  }

  lemma MarkerSeen(rest: string)
    ensures HasPrefix(NO_NEWLINE + "\n" + rest, NO_NEWLINE + "\n")
    ensures (NO_NEWLINE + "\n" + rest)[|NO_NEWLINE| + 1..] == rest
  {
    var m := NO_NEWLINE + "\n";
    assert (m + rest)[..|m|] == m && (m + rest)[|m|..] == rest;
  }

  /** After its line, a record leaves the marker or nothing; the rest follows. */
  lemma AfterLine(hasNewline: bool, rest: string)
    requires !HasPrefix(rest, NO_NEWLINE + "\n")
    ensures var after := (if hasNewline then "" else NO_NEWLINE + "\n") + rest;
            && (HasPrefix(after, NO_NEWLINE + "\n") <==> !hasNewline)
            && |after| >= (if hasNewline then 0 else |NO_NEWLINE| + 1)
            && (if hasNewline then after else after[|NO_NEWLINE| + 1..]) == rest
  {
    if hasNewline {
      assert "" + rest == rest;
    } else {
      MarkerSeen(rest);
    }
  }

  lemma ReadFirst(r: Record, rest: string, rs: seq<Record>)
    requires '\n' !in r.line.text && !HasPrefix(rest, NO_NEWLINE + "\n") && ReadRecords(rest) == Some(rs)
    ensures ReadRecords(PrintRecord(r) + rest) == Some([r] + rs)
  {
    RecordHead(r, rest);
    AfterLine(r.line.hasNewline, rest);
    assert ReadSigil(Sigil(r.op)) == Some(r.op);
    ReadStep(PrintRecord(r) + rest, |r.line.text| + 1, r,
             (if r.line.hasNewline then "" else NO_NEWLINE + "\n") + rest, rest, rs);
  }

  /** One step of the reader, its line ending at `i`. */
  lemma ReadStep(s: string, i: nat, r: Record, after: string, rest: string, rs: seq<Record>)
    requires i == IndexOf(s, '\n') && 0 < i < |s| && ReadSigil(s[0]) == Some(r.op) && s[1..i] == r.line.text
    requires after == s[i + 1..] && (HasPrefix(after, NO_NEWLINE + "\n") <==> !r.line.hasNewline)
    requires rest == if r.line.hasNewline then after else after[|NO_NEWLINE| + 1..]
    requires ReadRecords(rest) == Some(rs)
    ensures ReadRecords(s) == Some([r] + rs)
  {
  }

  /** Printing followed by reading loses nothing. */
  lemma {:induction false} RecordsRoundTrip(rs: seq<Record>)
    requires Printable(rs)
    ensures ReadRecords(PrintRecords(rs)) == Some(rs)
  {
    if rs == [] {
    } else {
      RecordsRoundTrip(rs[1..]);
      PrintedStartsWithSigil(rs[1..]);
      ReadFirst(rs[0], PrintRecords(rs[1..]), rs[1..]);
      assert rs == [rs[0]] + rs[1..];
    }
  }

  /** The two files a list of records describes. */
  function OldLines(rs: seq<Record>): (lines: seq<Line>) {
    if rs == [] then []
    else if Last(rs).op == Insert then OldLines(Init(rs))
    else OldLines(Init(rs)) + [Last(rs).line]
  }

  function NewLines(rs: seq<Record>): (lines: seq<Line>) {
    if rs == [] then []
    else if Last(rs).op == Delete then NewLines(Init(rs))
    else NewLines(Init(rs)) + [Last(rs).line]
  }

  function Ops(rs: seq<Record>): (ops: seq<Op>) {
    if rs == [] then [] else Ops(Init(rs)) + [Last(rs).op]
  }

  /** The records of a script. */
  ghost function Records(ops: seq<Op>, a: seq<Line>, b: seq<Line>): (rs: seq<Record>)
    requires Aligns(ops, a, b)
    decreases |ops|
  {
    if ops == [] then []
    else match Last(ops)
      case Keep => Records(Init(ops), Init(a), Init(b)) + [Record(Keep, Last(a))]
      case Delete => Records(Init(ops), Init(a), b) + [Record(Delete, Last(a))]
      case Insert => Records(Init(ops), a, Init(b)) + [Record(Insert, Last(b))]
  }

  /** The records carry both files whole. */
  lemma {:induction false} RecordsCarryBothSides(ops: seq<Op>, a: seq<Line>, b: seq<Line>)
    requires Aligns(ops, a, b)
    ensures OldLines(Records(ops, a, b)) == a
    ensures NewLines(Records(ops, a, b)) == b
    ensures Ops(Records(ops, a, b)) == ops
    decreases |ops|
  {
    if ops == [] {
    } else {
      InitLast(ops);
      match Last(ops)
      case Keep =>
        RecordsCarryBothSides(Init(ops), Init(a), Init(b));
        AppendRecord(Records(Init(ops), Init(a), Init(b)), Record(Keep, Last(a)));
        InitLast(a);
        InitLast(b);
      case Delete =>
        RecordsCarryBothSides(Init(ops), Init(a), b);
        AppendRecord(Records(Init(ops), Init(a), b), Record(Delete, Last(a)));
        InitLast(a);
      case Insert =>
        RecordsCarryBothSides(Init(ops), a, Init(b));
        AppendRecord(Records(Init(ops), a, Init(b)), Record(Insert, Last(b)));
        InitLast(b);
    }
  }

  lemma AppendRecord(rs: seq<Record>, r: Record)
    ensures OldLines(rs + [r]) == if r.op == Insert then OldLines(rs) else OldLines(rs) + [r.line]
    ensures NewLines(rs + [r]) == if r.op == Delete then NewLines(rs) else NewLines(rs) + [r.line]
    ensures Ops(rs + [r]) == Ops(rs) + [r.op]
  {
    InitOfConcat(rs, [r]);
    assert rs + [] == rs;
    assert Init([r]) == [];
  }

  lemma {:induction false} RecordsPrintable(ops: seq<Op>, a: seq<Line>, b: seq<Line>)
    requires Aligns(ops, a, b)
    requires forall l :: l in a || l in b ==> '\n' !in l.text
    ensures Printable(Records(ops, a, b))
    decreases |ops|
  {
    if ops == [] {
    } else {
      match Last(ops)
      case Keep => RecordsPrintable(Init(ops), Init(a), Init(b));
      case Delete => RecordsPrintable(Init(ops), Init(a), b);
      case Insert => RecordsPrintable(Init(ops), a, Init(b));
    }
  }

  // ---------------------------------------------------------------------
  // The hunk
  // ---------------------------------------------------------------------

  function FileHeader(oldName: string, newName: string): (s: string) {
    "--- " + oldName + NAME_SUFFIX + "\n" + "+++ " + newName + NAME_SUFFIX + "\n"
  }

  /** "@@ -old +new @@", a newline, and the body. */
  function HunkText(oldRange: string, newRange: string, body: string): (s: string) {
    "@@ -" + (oldRange + " " + ("+" + (newRange + " " + ("@@\n" + body))))
  }

  datatype Hunk = Hunk(oldRange: (nat, nat), newRange: (nat, nat), records: seq<Record>)

  function ReadBody(oldRange: string, newRange: string, body: string): (h: Option<Hunk>) {
    match ReadRange(oldRange)
    case None => None
    case Some(o) =>
      match ReadRange(newRange)
      case None => None
      case Some(n) =>
        match ReadRecords(body)
        case None => None
        case Some(rs) => Some(Hunk(o, n, rs))
  }

  /** From the new range on. */
  function ReadNew(oldRange: string, s: string): (h: Option<Hunk>) {
    var j := IndexOf(s, ' ');
    if j == |s| || !HasPrefix(s[j + 1..], "@@\n") then None
    else ReadBody(oldRange, s[..j], s[j + 1..][3..])
  }

  /** From the old range on. */
  function ReadOld(s: string): (h: Option<Hunk>) {
    var i := IndexOf(s, ' ');
    if i == |s| || !HasPrefix(s[i + 1..], "+") then None
    else ReadNew(s[..i], s[i + 1..][1..])
  }

  function ReadHunk(s: string): (h: Option<Hunk>) {
    if !HasPrefix(s, "@@ -") then None else ReadOld(s[4..])
  }

  lemma FieldSplits(field: string, rest: string)
    requires ' ' !in field
    ensures var s := field + " " + rest;
            IndexOf(s, ' ') == |field| < |s| && s[..|field|] == field && s[|field| + 1..] == rest
  {
    IndexOfConcat(field, ' ', rest);
  }

  lemma PrefixSplits(p: string, rest: string)
    ensures HasPrefix(p + rest, p) && (p + rest)[|p|..] == rest
  {
  }

  lemma NewSplits(o: string, n: string, body: string)
    requires ' ' !in n
    ensures ReadNew(o, n + " " + ("@@\n" + body)) == ReadBody(o, n, body)
  {
    FieldSplits(n, "@@\n" + body);
    PrefixSplits("@@\n", body);
  }

  lemma OldSplits(o: string, rest: string)
    requires ' ' !in o
    ensures ReadOld(o + " " + ("+" + rest)) == ReadNew(o, rest)
  {
    FieldSplits(o, "+" + rest);
    PrefixSplits("+", rest);
  }

  lemma HunkTextSplits(o: string, n: string, body: string)
    requires ' ' !in o && ' ' !in n
    ensures ReadHunk(HunkText(o, n, body)) == ReadBody(o, n, body)
  {
    var s2 := n + " " + ("@@\n" + body);
    NewSplits(o, n, body);
    OldSplits(o, s2);
    PrefixSplits("@@ -", o + " " + ("+" + s2));
  }

  // ---------------------------------------------------------------------
  // formatUnified
  // ---------------------------------------------------------------------

  ghost function OldCount(ops: seq<Op>): (n: nat) {
    if ops == [] then 0 else OldCount(Init(ops)) + (if Last(ops) == Insert then 0 else 1)
  }

  ghost function NewCount(ops: seq<Op>): (n: nat) {
    if ops == [] then 0 else NewCount(Init(ops)) + (if Last(ops) == Delete then 0 else 1)
  }

  lemma {:induction false} AlignedCounts(ops: seq<Op>, a: seq<Line>, b: seq<Line>)
    requires Aligns(ops, a, b)
    ensures OldCount(ops) == |a| && NewCount(ops) == |b|
    decreases |ops|
  {
    if ops == [] {
    } else {
      match Last(ops)
      case Keep => AlignedCounts(Init(ops), Init(a), Init(b));
      case Delete => AlignedCounts(Init(ops), Init(a), b);
      case Insert => AlignedCounts(Init(ops), a, Init(b));
    }
  }

  /** Every prefix of a script aligns prefixes of the two files. */
  lemma {:induction false} AlignsPrefix(ops: seq<Op>, a: seq<Line>, b: seq<Line>, k: nat)
    requires Aligns(ops, a, b) && k <= |ops|
    ensures var oi, ni := OldCount(ops[..k]), NewCount(ops[..k]);
            oi <= |a| && ni <= |b| && Aligns(ops[..k], a[..oi], b[..ni])
    decreases |ops|
  {
    if k == |ops| {
      assert ops[..k] == ops;
      AlignedCounts(ops, a, b);
      assert a[..|a|] == a && b[..|b|] == b;
    } else {
      var a', b' := if Last(ops) == Insert then a else Init(a), if Last(ops) == Delete then b else Init(b);
      AlignsPrefix(Init(ops), a', b', k);
      var oi, ni := OldCount(ops[..k]), NewCount(ops[..k]);
      assert Init(ops)[..k] == ops[..k];
      assert a'[..oi] == a[..oi] && b'[..ni] == b[..ni];
    }
  }

  method CountSides(ops: seq<Op>) returns (oldCount: nat, newCount: nat)
    ensures oldCount == OldCount(ops) && newCount == NewCount(ops)
  {
    oldCount, newCount := 0, 0;
    for k := 0 to |ops|
      invariant oldCount == OldCount(ops[..k]) && newCount == NewCount(ops[..k])
    {
      TakeInit(ops, k + 1);
      match ops[k]
      case Keep => oldCount, newCount := oldCount + 1, newCount + 1;
      case Delete => oldCount := oldCount + 1;
      case Insert => newCount := newCount + 1;
    }
    assert ops[..|ops|] == ops;
  }

  /** Where one more operation moves the two cursors. */
  lemma NextCursor(ops: seq<Op>, a: seq<Line>, b: seq<Line>, k: nat)
    requires Aligns(ops, a, b) && k < |ops|
    ensures var oi, ni := OldCount(ops[..k]), NewCount(ops[..k]);
            && oi <= |a| && ni <= |b| && Aligns(ops[..k], a[..oi], b[..ni])
            && (ops[k] == Insert ==> ni < |b|) && (ops[k] != Insert ==> oi < |a|)
            && var oi', ni' := OldCount(ops[..k + 1]), NewCount(ops[..k + 1]);
            && oi' == (if ops[k] == Insert then oi else oi + 1) && oi' <= |a|
            && ni' == (if ops[k] == Delete then ni else ni + 1) && ni' <= |b|
            && Aligns(ops[..k + 1], a[..oi'], b[..ni'])
  {
    AlignsPrefix(ops, a, b, k);
    AlignsPrefix(ops, a, b, k + 1);
    TakeInit(ops, k + 1);
  }

  /** The next record of the forward walk. */
  lemma NextRecord(ops: seq<Op>, a: seq<Line>, b: seq<Line>, k: nat,
                   oi: nat, ni: nat, oi': nat, ni': nat)
    requires Aligns(ops, a, b) && k < |ops| && oi <= oi' <= |a| && ni <= ni' <= |b|
    requires oi' == (if ops[k] == Insert then oi else oi + 1)
    requires ni' == (if ops[k] == Delete then ni else ni + 1)
    requires Aligns(ops[..k], a[..oi], b[..ni]) && Aligns(ops[..k + 1], a[..oi'], b[..ni'])
    ensures Records(ops[..k + 1], a[..oi'], b[..ni'])
            == Records(ops[..k], a[..oi], b[..ni]) + [Record(ops[k], if ops[k] == Insert then b[ni] else a[oi])]
  {
    TakeInit(ops, k + 1);
    if ops[k] != Insert { TakeInit(a, oi + 1); }
    if ops[k] != Delete { TakeInit(b, ni + 1); }
  }

  /** The rendering loop. */
  method FormatBody(ops: seq<Op>, a: seq<Line>, b: seq<Line>) returns (out: string)
    requires Aligns(ops, a, b)
    ensures out == PrintRecords(Records(ops, a, b))
  {
    out := "";
    var oi, ni := 0, 0;
    AlignsPrefix(ops, a, b, 0);
    for k := 0 to |ops|
      invariant oi == OldCount(ops[..k]) <= |a| && ni == NewCount(ops[..k]) <= |b|
      invariant Aligns(ops[..k], a[..oi], b[..ni])
      invariant out == PrintRecords(Records(ops[..k], a[..oi], b[..ni]))
    {
      NextCursor(ops, a, b, k);
      ghost var rs, oi0, ni0 := Records(ops[..k], a[..oi], b[..ni]), oi, ni;
      var sigil, l;
      match ops[k] {
        case Keep =>
          sigil, l := ' ', a[oi];
          oi, ni := oi + 1, ni + 1;
        case Delete =>
          sigil, l := '-', a[oi];
          oi := oi + 1;
        case Insert =>
          sigil, l := '+', b[ni];
          ni := ni + 1;
      }
      NextRecord(ops, a, b, k, oi0, ni0, oi, ni);
      PrintRecordsAppend(rs, Record(ops[k], l));
      out := out + ([sigil] + l.text + "\n" + (if l.hasNewline then "" else NO_NEWLINE + "\n"));
    }
    AlignedCounts(ops, a, b);
    assert ops[..|ops|] == ops && a[..|a|] == a && b[..|b|] == b;
  }

  method FormatUnified(oldName: string, newName: string, a: seq<Line>, b: seq<Line>, ops: seq<Op>)
    returns (out: string)
    requires Aligns(ops, a, b)
    ensures out == FileHeader(oldName, newName)
                   + HunkText(FormatRange(|a|), FormatRange(|b|), PrintRecords(Records(ops, a, b)))
  {
    var oldCount, newCount := CountSides(ops);
    AlignedCounts(ops, a, b);
    var body := FormatBody(ops, a, b);
    out := FileHeader(oldName, newName) + HunkText(FormatRange(oldCount), FormatRange(newCount), body);
  }

  lemma HunkRoundTrip(ops: seq<Op>, a: seq<Line>, b: seq<Line>)
    requires Aligns(ops, a, b) && WellFormed(a) && WellFormed(b)
    ensures ReadHunk(HunkText(FormatRange(|a|), FormatRange(|b|), PrintRecords(Records(ops, a, b))))
            == Some(Hunk((if a == [] then 0 else 1, |a|), (if b == [] then 0 else 1, |b|), Records(ops, a, b)))
  {
    RangeRoundTrip(|a|);
    RangeRoundTrip(|b|);
    RecordsPrintable(ops, a, b);
    RecordsRoundTrip(Records(ops, a, b));
    HunkTextSplits(FormatRange(|a|), FormatRange(|b|), PrintRecords(Records(ops, a, b)));
  }

  // ---------------------------------------------------------------------
  // buildIdenticalDiff
  // ---------------------------------------------------------------------

  /** `strings.Split(text, "\n")`: the empty trailing element stays. */
  function SplitAll(s: string): (parts: seq<string>)
    ensures parts != []
    decreases |s|
  {
    var i := IndexOf(s, '\n');
    if i == |s| then [s] else [s[..i]] + SplitAll(s[i + 1..])
  }

  function Terminated(parts: seq<string>): (lines: seq<Line>) {
    if parts == [] then [] else [Line(parts[0], true)] + Terminated(parts[1..])
  }

  function ContextRecords(parts: seq<string>): (rs: seq<Record>) {
    if parts == [] then [] else ContextRecords(Init(parts)) + [Record(Keep, Line(Last(parts), true))]
  }

  method FormatIdentical(oldName: string, newName: string, text: string) returns (out: string)
    ensures out == FileHeader(oldName, newName)
                   + HunkText("1," + Decimal(|SplitAll(text)|), "1," + Decimal(|SplitAll(text)|),
                            PrintRecords(ContextRecords(SplitAll(text))))
  {
    var parts := SplitAll(text);
    var body := "";
    for k := 0 to |parts|
      invariant body == PrintRecords(ContextRecords(parts[..k]))
    {
      TakeInit(parts, k + 1);
      PrintRecordsAppend(ContextRecords(parts[..k]), Record(Keep, Line(parts[k], true)));
      body := body + ([' '] + parts[k] + "\n" + "");
    }
    assert parts[..|parts|] == parts;
    var range := "1," + Decimal(|parts|);
    out := FileHeader(oldName, newName) + HunkText(range, range, body);
  }

  lemma {:induction false} SplitAllPrintable(s: string)
    ensures forall i :: 0 <= i < |SplitAll(s)| ==> '\n' !in SplitAll(s)[i]
    decreases |s|
  {
    var i := IndexOf(s, '\n');
    if i == |s| {
      assert s[..i] == s;
    } else {
      SplitAllPrintable(s[i + 1..]);
    }
  }

  lemma TerminatedCons(p: string, parts: seq<string>)
    ensures Terminated([p] + parts) == [Line(p, true)] + Terminated(parts)
  {
    assert ([p] + parts)[1..] == parts;
  }

  lemma CutThenNewline(s: string, i: nat)
    requires i < |s| && s[i] == '\n'
    ensures s[..i] + "\n" + (s[i + 1..] + "\n") == s + "\n"
  {
    CutAt(s, i);
  }

  lemma {:induction false} SplitAllJoins(s: string)
    ensures Join(Terminated(SplitAll(s))) == s + "\n"
    decreases |s|
  {
    var i := IndexOf(s, '\n');
    if i == |s| {
      TerminatedCons(s, []);
      JoinCons(Line(s, true), []);
      assert [s] + [] == [s];
      assert s + "\n" + "" == s + "\n";
    } else {
      var parts := SplitAll(s[i + 1..]);
      SplitAllJoins(s[i + 1..]);
      TerminatedCons(s[..i], parts);
      JoinCons(Line(s[..i], true), Terminated(parts));
      CutThenNewline(s, i);
    }
  }

  lemma {:induction false} TerminatedAppend(parts: seq<string>, p: string)
    ensures Terminated(parts + [p]) == Terminated(parts) + [Line(p, true)]
  {
    if parts == [] {
      assert parts + [p] == [p];
    } else {
      TerminatedAppend(parts[1..], p);
      HeadOfConcat(parts, [p]);
      TerminatedCons(parts[0], parts[1..] + [p]);
    }
  }

  lemma {:induction false} ContextRecordsLines(parts: seq<string>)
    ensures OldLines(ContextRecords(parts)) == Terminated(parts)
    ensures NewLines(ContextRecords(parts)) == Terminated(parts)
    decreases |parts|
  {
    if parts == [] {
    } else {
      ContextRecordsLines(Init(parts));
      AppendRecord(ContextRecords(Init(parts)), Record(Keep, Line(Last(parts), true)));
      TerminatedAppend(Init(parts), Last(parts));
      InitLast(parts);
    }
  }

  lemma {:induction false} ContextRecordsAt(parts: seq<string>)
    ensures |ContextRecords(parts)| == |parts|
    ensures forall i :: 0 <= i < |parts| ==> ContextRecords(parts)[i] == Record(Keep, Line(parts[i], true))
    decreases |parts|
  {
    if parts == [] {
    } else {
      ContextRecordsAt(Init(parts));
    }
  }

  /** The reader of a changeless diff finds only context, and in it the text
      with one newline more than it had. */
  lemma IdenticalRoundTrip(text: string)
    ensures var parts := SplitAll(text);
            var range := "1," + Decimal(|parts|);
            DescribesIdentical(ReadHunk(HunkText(range, range, PrintRecords(ContextRecords(parts)))), text)
  {
    var parts := SplitAll(text);
    var range := "1," + Decimal(|parts|);
    var rs := ContextRecords(parts);
    SplitAllPrintable(text);
    SplitAllJoins(text);
    ContextRecordsLines(parts);
    ContextRecordsAt(parts);
    PairRoundTrip(|parts|);
    RecordsRoundTrip(rs);
    HunkTextSplits(range, range, PrintRecords(rs));
    assert ReadHunk(HunkText(range, range, PrintRecords(rs))) == Some(Hunk((1, |parts|), (1, |parts|), rs));
  }

  // ---------------------------------------------------------------------
  // Generate
  // ---------------------------------------------------------------------

  datatype Request = Request(oldText: string, newText: string, oldName: string, newName: string, normalize: bool)

  datatype Outcome = Refused | Diff(diff: string, equal: bool)

  function Label(name: string): (s: string) {
    if name == "" then DEFAULT_NAME else name
  }

  /** What a reader finds after the two file labels. */
  function ReadDiff(req: Request, diff: string): (h: Option<Hunk>) {
    var header := FileHeader(Label(req.oldName), Label(req.newName));
    if HasPrefix(diff, header) then ReadHunk(diff[|header|..]) else None
  }

  lemma ReadAfterHeader(req: Request, hunk: string)
    ensures ReadDiff(req, FileHeader(Label(req.oldName), Label(req.newName)) + hunk) == ReadHunk(hunk)
  {
    var header := FileHeader(Label(req.oldName), Label(req.newName));
    assert (header + hunk)[..|header|] == header && (header + hunk)[|header|..] == hunk;
  }

  /** The reader recovers both files, the counts are the line counts, and the
      script behind the records is aligned, optimal and in order. */
  ghost predicate DescribesChange(h: Option<Hunk>, o: string, n: string) {
    && h.Some?
    && var rs := h.value.records;
    && Join(OldLines(rs)) == o && Join(NewLines(rs)) == n
    && h.value.oldRange == (if o == "" then 0 else 1, |Lines(o)|)
    && h.value.newRange == (if n == "" then 0 else 1, |Lines(n)|)
    && Aligns(Ops(rs), Lines(o), Lines(n))
    && Optimal(Ops(rs), Lines(o), Lines(n))
    && DeletesFirst(Ops(rs))
  }

  /** The changeless form: context only, and one newline more than the text. */
  ghost predicate DescribesIdentical(h: Option<Hunk>, text: string) {
    && h.Some?
    && var rs := h.value.records;
    && Join(OldLines(rs)) == Join(NewLines(rs)) == text + "\n"
    && h.value.oldRange == h.value.newRange == (1, |rs|)
    && forall r :: r in rs ==> r.op == Keep
  }

  /** The answer for two texts: refused exactly if they differ and are too large,
      equal exactly if they are, and readable as a description of them. */
  ghost predicate Answers(req: Request, r: Outcome, o: string, n: string) {
    && (r.Refused? <==> o != n && OverBudget(Lines(o), Lines(n)))
    && (r.Diff? ==> (r.equal <==> o == n))
    && (r.Diff? && r.equal ==> DescribesIdentical(ReadDiff(req, r.diff), o))
    && (r.Diff? && !r.equal ==> DescribesChange(ReadDiff(req, r.diff), o, n))
  }

  method Compare(req: Request, o: string, n: string) returns (r: Outcome)
    ensures Answers(req, r, o, n)
  {
    var oldName := if req.oldName == "" then DEFAULT_NAME else req.oldName;
    var newName := if req.newName == "" then DEFAULT_NAME else req.newName;
    var oldLines := SplitLines(o);
    var newLines := SplitLines(n);
    LinesLossless(o);
    LinesLossless(n);
    var same := LinesEqual(oldLines, newLines);
    if same {
      var diff := FormatIdentical(oldName, newName, o);
      IdenticalRoundTrip(o);
      ghost var range := "1," + Decimal(|SplitAll(o)|);
      ReadAfterHeader(req, HunkText(range, range, PrintRecords(ContextRecords(SplitAll(o)))));
      return Diff(diff, true);
    }
    var edits := BoundedEdits(oldLines, newLines);
    if edits.TooLarge? {
      return Refused;
    }
    var diff := FormatUnified(oldName, newName, oldLines, newLines, edits.ops);
    HunkRoundTrip(edits.ops, oldLines, newLines);
    RecordsCarryBothSides(edits.ops, oldLines, newLines);
    ReadAfterHeader(req, HunkText(FormatRange(|oldLines|), FormatRange(|newLines|),
                                  PrintRecords(Records(edits.ops, oldLines, newLines))));
    return Diff(diff, false);
  }

  /** The texts themselves are compared, or, on request, what is left of them
      without spaces and tabs. */
  method Generate(req: Request) returns (r: Outcome)
    ensures !req.normalize ==> Answers(req, r, req.oldText, req.newText)
    ensures req.normalize ==> Answers(req, r, Filter(req.oldText, Inked), Filter(req.newText, Inked))
  {
    var oldText, newText := req.oldText, req.newText;
    if req.normalize {
      oldText, newText := Normalize(oldText), Normalize(newText);
      NormalizeFilters(req.oldText);
      NormalizeFilters(req.newText);
    }
    r := Compare(req, oldText, newText);
  }
}
