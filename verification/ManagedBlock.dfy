/**
 The managed block of /etc/exports (simple-nfs-server/src/exports.rs:14-77): exactly one marked block
 may be rewritten, everything outside it is preserved byte for byte.
 */
module ManagedBlock {
  import opened Wrappers
  import opened Text
  import opened SplitLines

  const BEGIN_MARK: string := "# >>> cider-nfs managed block >>>"
  const END_MARK: string := "# <<< cider-nfs managed block <<<"
  const LEGACY_BEGIN_MARK: string := "# >>> orchard-nfs managed block >>>"
  const LEGACY_END_MARK: string := "# <<< orchard-nfs managed block <<<"

  // ---- What a line is ----

  /** trim_end_matches(['\r', '\n']) */
  function Bare(line: string): string {
    if line != "" && (line[|line| - 1] == '\n' || line[|line| - 1] == '\r') then Bare(line[..|line| - 1]) else line
  }

  function TrimStart(s: string): string {
    if s != "" && White(s[0]) then TrimStart(s[1..]) else s
  }

  function TrimEnd(s: string): string {
    if s != "" && White(s[|s| - 1]) then TrimEnd(s[..|s| - 1]) else s
  }

  function Trim(s: string): string {
    TrimEnd(TrimStart(s))
  }

  /** Padded is a marker with something around it. */
  datatype Kind = Plain | Begin(legacy: bool) | End(legacy: bool) | Padded

  function Marker(s: string): Kind {
    if s == BEGIN_MARK then Begin(false)
    else if s == LEGACY_BEGIN_MARK then Begin(true)
    else if s == END_MARK then End(false)
    else if s == LEGACY_END_MARK then End(true)
    else Plain
  }

  function KindOf(line: string): Kind {
    var bare := Bare(line);
    if !Marker(Trim(bare)).Plain? && bare != Trim(bare) then Padded else Marker(bare)
  }

  // ---- What a well-formed file is ----

  predicate AllPlain(lines: seq<string>) {
    forall i :: 0 <= i < |lines| ==> KindOf(lines[i]).Plain?
  }

  /** Line i begins the block, line j ends it, and there is no other marker. */
  predicate Block(lines: seq<string>, i: nat, j: nat) {
    && i < j < |lines| && KindOf(lines[i]).Begin? && KindOf(lines[j]) == End(KindOf(lines[i]).legacy)
    && forall k :: 0 <= k < |lines| && k != i && k != j ==> KindOf(lines[k]).Plain?
  }

  ghost predicate WellFormed(lines: seq<string>) {
    AllPlain(lines) || exists i: nat, j: nat :: Block(lines, i, j)
  }

  lemma BlockUnique(lines: seq<string>, i: nat, j: nat, k: nat, m: nat)
    requires Block(lines, i, j) && Block(lines, k, m)
    ensures i == k && j == m
  {
  }

  /** The text outside the managed block. */
  ghost function Outside(lines: seq<string>): string
    requires WellFormed(lines)
  {
    if AllPlain(lines) then Join(lines)
    else
      var i: nat, j: nat :| Block(lines, i, j);
      Join(lines[..i]) + Join(lines[j + 1..])
  }

  /** There is only one block it can be outside of. */
  lemma OutsideIs(lines: seq<string>, i: nat, j: nat)
    requires Block(lines, i, j)
    ensures Outside(lines) == Join(lines[..i]) + Join(lines[j + 1..])
  {
    hide KindOf, Join;
    assert !AllPlain(lines) by { assert KindOf(lines[i]).Begin?; }
    assert WellFormed(lines);
    var k: nat, m: nat :| Block(lines, k, m) && Outside(lines) == Join(lines[..k]) + Join(lines[m + 1..]);
    BlockUnique(lines, k, m, i, j);
  }

  // ---- The scan ----

  datatype StripError = NotExact | Nested | Unmatched | Unclosed

  datatype Scan = Fault(error: StripError) | Going(kept: seq<string>, open: Option<bool>, seen: bool)

  function ScanLine(s: Scan, line: string): Scan {
    if s.Fault? then s
    else
      match KindOf(line)
      case Padded => Fault(NotExact)
      case Begin(legacy) => if s.seen || s.open.Some? then Fault(Nested) else Going(s.kept, Some(legacy), true)
      case End(legacy) => if s.open == Some(legacy) then Going(s.kept, None, s.seen) else Fault(Unmatched)
      case Plain => if s.open.None? then Going(s.kept + [line], None, s.seen) else s
  }

  function ScanAll(lines: seq<string>): Scan {
    if lines == [] then Going([], None, false) else ScanLine(ScanAll(lines[..|lines| - 1]), lines[|lines| - 1])
  }

  function Strip(content: string): Result<string, StripError> {
    var s := ScanAll(Lines(content));
    if s.Fault? then Err(s.error) else if s.open.Some? then Err(Unclosed) else Ok(Join(s.kept))
  }

  // ---- The scan against the definition ----

  /** What a scan that is still going has read. */
  ghost predicate Reading(lines: seq<string>, s: Scan) {
    s.Going? ==>
      if s.open.Some? then
        s.seen && exists i: nat :: Opened(lines, i, s.open.value) && s.kept == lines[..i]
      else if s.seen then
        exists i: nat, j: nat :: Block(lines, i, j) && s.kept == lines[..i] + lines[j + 1..]
      else AllPlain(lines) && s.kept == lines
  }

  predicate Opened(lines: seq<string>, i: nat, legacy: bool) {
    && i < |lines| && KindOf(lines[i]) == Begin(legacy)
    && forall k :: 0 <= k < |lines| && k != i ==> KindOf(lines[k]).Plain?
  }

  lemma {:induction false} ScanReads(lines: seq<string>)
    ensures Reading(lines, ScanAll(lines))
    decreases |lines|
  {
    if lines != [] {
      var front, line := lines[..|lines| - 1], lines[|lines| - 1];
      ScanReads(front);
      assert lines == front + [line];
      var s := ScanAll(front);
      hide ScanAll, KindOf, ScanLine, Reading;
      if s.Going? {
        if s.open.Some? {
          ReadsInside(front, line, s);
        } else {
          ReadsOutside(front, line, s);
        }
      } else {
        assert Reading(lines, ScanLine(s, line)) by { FaultReads(lines, s, line); }
      }
      assert ScanAll(lines) == ScanLine(s, line) by { ScanOneMore(lines, |front|); assert lines[..|lines|] == lines; }
    }
  }

  lemma FaultReads(lines: seq<string>, s: Scan, line: string)
    requires s.Fault?
    ensures Reading(lines, ScanLine(s, line))
  {
  }

  lemma ReadsInside(front: seq<string>, line: string, s: Scan)
    requires s.Going? && s.open.Some? && Reading(front, s)
    ensures Reading(front + [line], ScanLine(s, line))
  {
    hide KindOf;
    var lines := front + [line];
    var i: nat :| Opened(front, i, s.open.value) && s.kept == front[..i];
    assert lines[..i] == front[..i];
    if KindOf(line) == End(s.open.value) {
      assert Block(lines, i, |front|) && lines[|front| + 1..] == [];
      assert s.kept == lines[..i] + lines[|front| + 1..];
    } else if KindOf(line).Plain? {
      assert Opened(lines, i, s.open.value);
    }
  }

  lemma ReadsOutside(front: seq<string>, line: string, s: Scan)
    requires s.Going? && s.open.None? && Reading(front, s)
    ensures Reading(front + [line], ScanLine(s, line))
  {
    hide KindOf;
    var lines := front + [line];
    if KindOf(line).Plain? && s.seen {
      var i: nat, j: nat :| Block(front, i, j) && s.kept == front[..i] + front[j + 1..];
      assert Block(lines, i, j) && lines[..i] == front[..i] && lines[j + 1..] == front[j + 1..] + [line];
      assert s.kept + [line] == lines[..i] + lines[j + 1..];
    } else if KindOf(line).Begin? && !s.seen {
      assert Opened(lines, |front|, KindOf(line).legacy) && lines[..|front|] == front;
    }
  }

  lemma {:induction false} ScanPlain(lines: seq<string>)
    requires AllPlain(lines)
    ensures ScanAll(lines) == Going(lines, None, false)
  {
    hide KindOf;
    if lines != [] {
      ScanPlain(lines[..|lines| - 1]);
      assert lines == lines[..|lines| - 1] + [lines[|lines| - 1]];
    }
  }

  lemma {:induction false} ScanOpened(lines: seq<string>, i: nat, legacy: bool)
    requires Opened(lines, i, legacy)
    ensures ScanAll(lines) == Going(lines[..i], Some(legacy), true)
    decreases |lines|
  {
    hide KindOf;
    var front := lines[..|lines| - 1];
    if i == |front| {
      ScanPlain(front);
    } else {
      ScanOpened(front, i, legacy);
      assert front[..i] == lines[..i];
    }
  }

  lemma {:induction false} ScanBlock(lines: seq<string>, i: nat, j: nat)
    requires Block(lines, i, j)
    ensures ScanAll(lines) == Going(lines[..i] + lines[j + 1..], None, true)
    decreases |lines|
  {
    hide KindOf;
    var front := lines[..|lines| - 1];
    if j == |front| {
      assert KindOf(lines[i]) == Begin(KindOf(lines[i]).legacy);
      ScanOpened(front, i, KindOf(lines[i]).legacy);
      assert lines[j + 1..] == [] && front[..i] == lines[..i];
      assert lines[..i] + lines[j + 1..] == lines[..i];
    } else {
      ScanBlock(front, i, j);
      assert front[..i] == lines[..i] && front[j + 1..] + [lines[|front|]] == lines[j + 1..];
      assert lines[..i] + lines[j + 1..] == (front[..i] + front[j + 1..]) + [lines[|front|]];
    }
  }

  /** Stripping succeeds exactly on files with at most one well-formed block, and then returns exactly
      what is outside it. */
  lemma StripIsOutside(content: string)
    ensures Strip(content).Ok? <==> WellFormed(Lines(content))
    ensures WellFormed(Lines(content)) ==> Strip(content) == Ok(Outside(Lines(content)))
  {
    var lines := Lines(content);
    ScanReads(lines);
    hide KindOf, ScanAll, Lines;
    if WellFormed(lines) {
      if AllPlain(lines) {
        ScanPlain(lines);
      } else {
        var i: nat, j: nat :| Block(lines, i, j);
        OutsideIs(lines, i, j);
        ScanBlock(lines, i, j);
        JoinAppend(lines[..i], lines[j + 1..]);
      }
    }
  }

  /** The loop over the lines. */
  method StripManagedBlock(content: string) returns (r: Result<string, StripError>)
    ensures r == Strip(content)
  {
    hide KindOf, Lines;
    var lines := Lines(content);
    var out := "";
    var expectedEnd: Option<bool> := None;
    var seen := false;
    ghost var kept: seq<string> := [];
    assert ScanAll(lines[..0]) == Going([], None, false);
    for i := 0 to |lines|
      invariant ScanAll(lines[..i]) == Going(kept, expectedEnd, seen) && out == Join(kept)
    {
      var original := lines[i];
      ScanOneMore(lines, i);
      var kind := KindOf(original);
      if kind.Padded? {
        FaultStays(lines, i + 1);
        return Err(NotExact);
      }
      if kind.Begin? {
        if seen || expectedEnd.Some? {
          FaultStays(lines, i + 1);
          return Err(Nested);
        }
        seen, expectedEnd := true, Some(kind.legacy);
        continue;
      }
      if kind.End? {
        if expectedEnd != Some(kind.legacy) {
          FaultStays(lines, i + 1);
          return Err(Unmatched);
        }
        expectedEnd := None;
        continue;
      }
      if expectedEnd.None? {
        JoinAppend(kept, [original]);
        JoinOne(original);
        out, kept := out + original, kept + [original];
      }
    }
    assert lines[..|lines|] == lines;
    if expectedEnd.Some? {
      return Err(Unclosed);
    }
    return Ok(out);
  }

  lemma JoinOne(s: string)
    ensures Join([s]) == s
  {
    assert [s][1..] == [];
  }

  lemma ScanOneMore(lines: seq<string>, i: nat)
    requires i < |lines|
    ensures ScanAll(lines[..i + 1]) == ScanLine(ScanAll(lines[..i]), lines[i])
  {
    assert lines[..i + 1][..i] == lines[..i];
  }

  lemma {:induction false} FaultStays(lines: seq<string>, i: nat)
    requires i <= |lines| && ScanAll(lines[..i]).Fault?
    ensures ScanAll(lines) == ScanAll(lines[..i])
    decreases |lines| - i
  {
    if i == |lines| {
      assert lines[..i] == lines;
    } else {
      ScanOneMore(lines, i);
      FaultStays(lines, i + 1);
    }
  }

  // ---- Rewriting the block ----

  const NOTE: string := "# generated "
  const NOTE_END: string := " by simple-nfs-server setup-server"

  function Terminated(s: string): string {
    if s != "" && s[|s| - 1] != '\n' then s + "\n" else s
  }

  /** The new block: stamp is the local time in RFC 3339 form. */
  function NewBlock(line: string, stamp: string): string {
    BEGIN_MARK + "\n" + (NOTE + stamp + NOTE_END + "\n") + (line + "\n") + (END_MARK + "\n")
  }

  function WithBlock(content: string, line: string, stamp: string): Result<string, StripError> {
    var out := Strip(content);
    if out.Err? then out else Ok(Terminated(out.value) + NewBlock(line, stamp))
  }

  method WithManagedBlock(content: string, line: string, stamp: string) returns (r: Result<string, StripError>)
    ensures r == WithBlock(content, line, stamp)
  {
    hide Strip;
    var stripped := StripManagedBlock(content);
    if stripped.Err? {
      return stripped;
    }
    var out := stripped.value;
    if out != "" && out[|out| - 1] != '\n' {
      out := out + "\n";
    }
    ghost var kept := out;
    out := out + (BEGIN_MARK + "\n");
    out := out + (NOTE + stamp + NOTE_END + "\n");
    out := out + (line + "\n");
    out := out + (END_MARK + "\n");
    Concats(kept, BEGIN_MARK + "\n", NOTE + stamp + NOTE_END + "\n", line + "\n", END_MARK + "\n");
    r := Ok(out);
  }

  lemma Concats(a: string, b: string, c: string, d: string, e: string)
    ensures a + b + c + d + e == a + (b + c + d + e)
  {
  }

  // ---- Main results ----

  lemma PlainStrip(s: string)
    requires AllPlain(Lines(s))
    ensures Strip(s) == Ok(s)
  {
    hide KindOf, Lines, ScanAll;
    ScanPlain(Lines(s));
    JoinLines(s);
  }

  /** What stripping returns holds no marker any more. */
  lemma StrippedIsPlain(content: string)
    requires Strip(content).Ok?
    ensures AllPlain(Lines(Strip(content).value))
  {
    var lines := Lines(content);
    hide KindOf, ScanAll, Strip, Lines, IsLine, Ended, Join, Split;
    StripIsOutside(content);
    JoinLines(content);
    LinesSplit(content);
    if !AllPlain(lines) {
      var i: nat, j: nat :| Block(lines, i, j) && Outside(lines) == Join(lines[..i]) + Join(lines[j + 1..]);
      PrefixEnded(lines, i);
      PrefixEnded(lines, j);
      SplitAppend(lines[..i], lines[j + 1..]);
      JoinAppend(lines[..i], lines[j + 1..]);
      LinesJoin(lines[..i] + lines[j + 1..]);
    }
  }

  /** Stripping twice is stripping once. */
  lemma StripIdempotent(content: string)
    requires Strip(content).Ok?
    ensures Strip(Strip(content).value) == Strip(content)
  {
    StrippedIsPlain(content);
    hide Strip, Lines, KindOf;
    PlainStrip(Strip(content).value);
  }

  lemma NewlineKeepsKind(line: string)
    ensures KindOf(line + "\n") == KindOf(line)
  {
    assert Bare(line + "\n") == Bare(line) by { assert (line + "\n")[..|line|] == line; }
    hide Bare, Marker, Trim;
  }

  lemma NewlinePlain(front: seq<string>, last: string)
    requires AllPlain(front + [last])
    ensures AllPlain(front + [last + "\n"])
  {
    hide KindOf;
    NewlineKeepsKind(last);
    forall i | 0 <= i <= |front| ensures KindOf((front + [last + "\n"])[i]).Plain? {
      assert KindOf((front + [last])[i]).Plain?;
    }
  }

  lemma NewlineLines(front: seq<string>, last: string, s: string)
    requires Split(front + [last]) && s == Join(front + [last]) && s != "" && s[|s| - 1] != '\n'
    ensures Lines(s + "\n") == front + [last + "\n"]
  {
    hide Lines, Join, Split;
    JoinAppend(front, [last]);
    JoinAppend(front, [last + "\n"]);
    JoinOne(last);
    JoinOne(last + "\n");
    LastLine(front, last, s);
    LinesJoin(front + [last + "\n"]);
    Associative(Join(front), last, "\n");
  }

  lemma TerminatedPlain(s: string)
    requires AllPlain(Lines(s))
    ensures AllPlain(Lines(Terminated(s))) && Ended(Terminated(s))
  {
    hide Lines, Join, AllPlain, Split;
    if s != "" && s[|s| - 1] != '\n' {
      var lines := Lines(s);
      JoinLines(s);
      LinesSplit(s);
      JoinNone();
      assert lines != [];
      var front, last := lines[..|lines| - 1], lines[|lines| - 1];
      assert lines == front + [last];
      NewlineLines(front, last, s);
      NewlinePlain(front, last);
    }
  }

  /** A last line that lacks its newline may be given one. */
  lemma LastLine(front: seq<string>, last: string, s: string)
    requires Split(front + [last]) && s == Join(front) + last && s != "" && s[|s| - 1] != '\n'
    ensures Split(front + [last + "\n"])
  {
    var lines, lines' := front + [last], front + [last + "\n"];
    assert IsLine(lines[|front|]);
    assert last != "" && last[|last| - 1] == s[|s| - 1];
    forall i | 0 <= i < |lines'| ensures IsLine(lines'[i]) && (i < |lines'| - 1 ==> Ended(lines'[i])) {
      assert IsLine(lines[i]) && (i < |lines| - 1 ==> Ended(lines[i]));
      if i == |front| {
        forall k | 0 <= k < |last| ensures last[k] != '\n' {
        }
      }
    }
  }

  lemma MarkerLines()
    ensures KindOf(BEGIN_MARK + "\n") == Begin(false) && IsLine(BEGIN_MARK + "\n")
    ensures KindOf(END_MARK + "\n") == End(false) && IsLine(END_MARK + "\n")
  {
    MarkersDiffer();
    hide Marker;
    assert BEGIN_MARK[|BEGIN_MARK| - 1] == '>' && END_MARK[|END_MARK| - 1] == '<';
    BareOf(BEGIN_MARK);
    BareOf(END_MARK);
    BeginIsLine();
    EndIsLine();
    hide White, Bare, TrimStart, TrimEnd, IsLine;
  }

  lemma BeginIsLine()
    ensures IsLine(BEGIN_MARK + "\n")
  {
    forall i | 0 <= i < |BEGIN_MARK| ensures BEGIN_MARK[i] != '\n' {
      assert |BEGIN_MARK| == 33;
    }
  }

  lemma EndIsLine()
    ensures IsLine(END_MARK + "\n")
  {
    forall i | 0 <= i < |END_MARK| ensures END_MARK[i] != '\n' {
      assert |END_MARK| == 33;
    }
  }

  lemma MarkersDiffer()
    ensures Marker(BEGIN_MARK) == Begin(false) && Marker(END_MARK) == End(false)
  {
    assert BEGIN_MARK[2] != END_MARK[2];
    assert END_MARK[2] != LEGACY_BEGIN_MARK[2];
  }

  /** A line that begins with # and ends with a visible character is trimmed already. */
  lemma BareOf(s: string)
    requires |s| > 1 && s[0] == '#' && !White(s[|s| - 1])
    ensures Bare(s + "\n") == s && Trim(s) == s
  {
    assert (s + "\n")[..|s|] == s;
  }

  /** A comment line that begins like the note is no marker. */
  lemma NoteIsPlain(stamp: string)
    requires '\n' !in stamp
    ensures var note := NOTE + stamp + NOTE_END + "\n"; IsLine(note) && KindOf(note).Plain?
  {
    var bare := NOTE + stamp + NOTE_END;
    var note := bare + "\n";
    assert bare[|bare| - 1] == NOTE_END[|NOTE_END| - 1] == 'r' && bare[0] == '#' && bare[2] == 'g';
    BareOf(bare);
    assert Marker(bare).Plain?;
    forall k | 0 <= k < |bare| ensures bare[k] != '\n' {
      if k >= |NOTE| && k < |NOTE| + |stamp| {
        assert bare[k] == stamp[k - |NOTE|];
        assert stamp[k - |NOTE|] in stamp;
      }
    }
  }

  /** The lines of a rewritten file. */
  lemma RewrittenLines(kept: string, line: string, stamp: string)
    requires Ended(kept) && '\n' !in stamp
    ensures Lines(kept + NewBlock(line, stamp))
      == Lines(kept) + [BEGIN_MARK + "\n"] + [NOTE + stamp + NOTE_END + "\n"] + Lines(line + "\n") + [END_MARK + "\n"]
  {
    hide Lines;
    var begin, note, end := BEGIN_MARK + "\n", NOTE + stamp + NOTE_END + "\n", END_MARK + "\n";
    MarkerLines();
    NoteIsPlain(stamp);
    hide KindOf;
    OneLine(begin);
    OneLine(note);
    OneLine(end);
    LinesAppend(kept, begin);
    LinesAppend(kept + begin, note);
    LinesAppend(kept + begin + note, line + "\n");
    LinesAppend(kept + begin + note + (line + "\n"), end);
    Concats(kept, begin, note, line + "\n", end);
  }

  /** The new block is a block, for every export line that holds no marker. */
  lemma RewrittenIsBlock(kept: string, line: string, stamp: string)
    requires AllPlain(Lines(kept)) && Ended(kept) && '\n' !in stamp && AllPlain(Lines(line + "\n"))
    ensures Strip(kept + NewBlock(line, stamp)) == Ok(kept)
  {
    hide NewBlock, ScanAll, Bare, Marker;
    RewrittenLines(kept, line, stamp);
    MarkerLines();
    NoteIsPlain(stamp);
    JoinLines(kept);
    StripParts(kept + NewBlock(line, stamp), Lines(kept), BEGIN_MARK + "\n", NOTE + stamp + NOTE_END + "\n",
      Lines(line + "\n"),
      END_MARK + "\n");
  }

  lemma StripParts(text: string, front: seq<string>, begin: string, note: string, middle: seq<string>, end: string)
    requires Lines(text) == front + [begin] + [note] + middle + [end]
    requires AllPlain(front) && AllPlain(middle) && KindOf(begin) == Begin(false) && KindOf(note).Plain?
      && KindOf(end) == End(false)
    ensures Strip(text) == Ok(Join(front))
  {
    hide KindOf, Lines, ScanAll;
    var lines := front + [begin] + [note] + middle + [end];
    BlockOf(front, begin, note, middle, end);
    ScanBlock(lines, |front|, |lines| - 1);
    assert lines[..|front|] == front && lines[|lines|..] == [];
    assert front + lines[|lines|..] == front;
  }

  lemma BlockOf(front: seq<string>, begin: string, note: string, middle: seq<string>, end: string)
    requires AllPlain(front) && AllPlain(middle) && KindOf(begin) == Begin(false) && KindOf(note).Plain?
      && KindOf(end) == End(false)
    ensures var lines := front + [begin] + [note] + middle + [end]; Block(lines, |front|, |lines| - 1)
  {
    hide KindOf;
  }

  /** Stripping what was written gives back what was kept, up to a newline after its last line. */
  lemma StripOfRewritten(content: string, line: string, stamp: string)
    requires Strip(content).Ok? && '\n' !in stamp && AllPlain(Lines(line + "\n"))
    ensures WithBlock(content, line, stamp).Ok?
    ensures Strip(WithBlock(content, line, stamp).value) == Ok(Terminated(Strip(content).value))
  {
    StrippedIsPlain(content);
    TerminatedPlain(Strip(content).value);
    hide Strip, Lines, KindOf, NewBlock;
    RewrittenIsBlock(Terminated(Strip(content).value), line, stamp);
  }

  /** Rewriting a rewritten file is rewriting the original: setup may be repeated. */
  lemma RewriteAgain(content: string, line: string, stamp: string, line': string, stamp': string)
    requires Strip(content).Ok? && '\n' !in stamp && AllPlain(Lines(line + "\n"))
    ensures WithBlock(WithBlock(content, line, stamp).value, line', stamp') == WithBlock(content, line', stamp')
  {
    StripOfRewritten(content, line, stamp);
    hide Strip, Lines, KindOf, NewBlock;
  }

  /** A malformed file is refused and therefore left as it is. */
  lemma MalformedIsRefused(content: string, line: string, stamp: string)
    ensures WithBlock(content, line, stamp).Err? <==> !WellFormed(Lines(content))
  {
    StripIsOutside(content);
    hide Strip, Lines, KindOf, NewBlock;
  }
}
