/**
 Setup and teardown of the exports file (simple-nfs-server/src/exports.rs:79-226): a setup whose file is
 not validated leaves the file as it was, and teardown undoes setup.
 */
module ExportsFile {
  import opened Wrappers
  import opened SplitLines
  import opened ManagedBlock
  import opened ExportLine

  /** What the operating system does: whether a write succeeds, and what it leaves behind if not. */
  datatype Write = Written | Torn(left: Option<string>)

  /** The verdict on a rewritten file.  What the daemon commands that come after it do is one flag. */
  datatype Validation = Accepted | Rejected | Unavailable

  /** The file exactly as it is on disk; None when it does not exist. */
  class ExportsFile {
    var content: Option<string>

    constructor (c: Option<string>)
      ensures content == c
    {
      content := c;
    }

    /** finish_validation: anything but an accepted file is put back. */
    method FinishValidation(previous: Option<string>, validation: Validation, restore: Write) returns (ok: bool)
      modifies this
      ensures ok <==> validation.Accepted?
      ensures content == if ok then old(content) else if restore.Written? then previous else restore.left
    {
      if validation.Accepted? {
        return true;
      }
      content := if restore.Written? then previous else restore.left;
      return false;
    }

    method WriteExports(next: string, previous: Option<string>, write: Write, restore: Write) returns (ok: bool)
      modifies this
      ensures ok <==> write.Written?
      ensures content == if ok then Some(next) else if restore.Written? then previous else restore.left
    {
      content := if write.Written? then Some(next) else write.left;
      if write.Torn? {
        ok := FinishValidation(previous, Unavailable, restore);
      } else {
        ok := true;
      }
    }

    /** setup: once the rewritten file is written and validated it stays, whatever the NFS daemon then
        does; before that a failure puts the old file back, unless putting it back failed too. */
    method Setup(s: Server, stamp: string, write: Write, validation: Validation, restore: Write, daemon: bool)
      returns (ok: bool)
      modifies this
      ensures var was := if old(content).Some? then old(content).value else "";
        var next := WithBlock(was, LineOf(s), stamp);
        if next.Ok? && write.Written? && validation.Accepted? then content == Some(next.value) && ok == daemon
        else !ok && (next.Err? || restore.Written? ==> content == old(content))
    {
      hide WithBlock, LineOf;
      var current := if content.Some? then content.value else "";
      var line := BuildLine(s);
      var next := WithManagedBlock(current, line, stamp);
      if next.Err? {
        return false;
      }
      var backup := content;
      var written := WriteExports(next.value, backup, write, restore);
      if !written {
        return false;
      }
      var valid := FinishValidation(backup, validation, restore);
      if !valid {
        return false;
      }
      return daemon;
    }

    /** teardown: only a file that shows a begin mark is rewritten, and once written it stays. */
    method Teardown(write: Write, restore: Write, daemon: bool) returns (ok: bool)
      modifies this
      ensures old(content).None? ==> ok && content == old(content)
      ensures old(content).Some? ==>
        var stripped := Strip(old(content).value);
        if stripped.Err? then !ok && content == old(content)
        else if !HasBlock(old(content).value) then ok == daemon && content == old(content)
        else if write.Written? then ok == daemon && content == Some(stripped.value)
        else !ok && (restore.Written? ==> content == old(content))
    {
      hide Strip, HasBlock;
      if content.None? {
        return true;
      }
      var current := content.value;
      var stripped := StripManagedBlock(current);
      if stripped.Err? {
        return false;
      }
      if HasBlock(current) {
        var written := WriteExports(stripped.value, Some(current), write, restore);
        if !written {
          return false;
        }
      }
      return daemon;
    }
  }

  // ---- has_managed_block ----

  /** One line as str::lines gives it: without its newline and at most one carriage return before it. */
  function Chomp(line: string): string {
    if line != "" && line[|line| - 1] == '\n' then
      var cut := line[..|line| - 1];
      if cut != "" && cut[|cut| - 1] == '\r' then cut[..|cut| - 1] else cut
    else line
  }

  predicate HasBlock(content: string) {
    exists i :: 0 <= i < |Lines(content)| && Marker(Chomp(Lines(content)[i])).Begin?
  }

  /** A rewritten file shows its block. */
  lemma RewrittenHasBlock(kept: string, line: string, stamp: string)
    requires Ended(kept) && '\n' !in stamp
    ensures HasBlock(kept + NewBlock(line, stamp))
  {
    var text := kept + NewBlock(line, stamp);
    RewrittenLines(kept, line, stamp);
    var i := |Lines(kept)|;
    assert Lines(text)[i] == BEGIN_MARK + "\n";
    hide Lines, NewBlock;
    BeginChomps();
  }

  lemma BeginChomps()
    ensures Marker(Chomp(BEGIN_MARK + "\n")).Begin?
  {
    assert (BEGIN_MARK + "\n")[..|BEGIN_MARK|] == BEGIN_MARK;
    assert BEGIN_MARK[|BEGIN_MARK| - 1] == '>';
  }

  /** Teardown undoes setup: what was outside the block is all that remains, up to one newline at its end. */
  lemma TeardownUndoesSetup(content: string, s: Server, addressed: bool, stamp: string)
    requires Validated(s, addressed) && WellFormed(Lines(content)) && '\n' !in stamp
    ensures WithBlock(content, LineOf(s), stamp).Ok?
    ensures var next := WithBlock(content, LineOf(s), stamp).value;
      HasBlock(next) && Strip(next) == Ok(Terminated(Outside(Lines(content))))
  {
    StripIsOutside(content);
    ValidatedLineIsPlain(s, addressed);
    StrippedIsPlain(content);
    TerminatedPlain(Strip(content).value);
    hide Strip, Lines, KindOf, NewBlock, Validated, LineOf, Outside, WellFormed, HasBlock;
    StripOfRewritten(content, LineOf(s), stamp);
    RewrittenHasBlock(Terminated(Strip(content).value), LineOf(s), stamp);
  }

  lemma BareOfMark(line: string, mark: string)
    requires Chomp(line) == mark && mark != "" && mark[|mark| - 1] == '>'
    ensures Bare(line) == mark
  {
    assert Bare(mark) == mark;
    if line != mark {
      var cut := line[..|line| - 1];
      assert Bare(line) == Bare(cut);
      if cut != mark {
        assert cut[..|cut| - 1] == mark && Bare(cut) == Bare(mark);
      }
    }
  }

  lemma ChompedBegin(line: string)
    ensures Marker(Chomp(line)).Begin? ==> Bare(line) == Chomp(line) && KindOf(line).Begin?
    ensures KindOf(line).Begin? && Chomp(line) == Bare(line) ==> Marker(Chomp(line)).Begin?
  {
    if Marker(Chomp(line)).Begin? {
      assert BEGIN_MARK[|BEGIN_MARK| - 1] == '>' && LEGACY_BEGIN_MARK[|LEGACY_BEGIN_MARK| - 1] == '>';
      BareOfMark(line, Chomp(line));
      BareOf(Chomp(line));
    }
  }

  /** has_managed_block and stripping agree exactly when the begin line ends in one newline with at most
      one carriage return before it: a block whose begin line has more of them is stripped by setup but
      not seen by teardown. */
  lemma ShownBlocks(content: string)
    requires WellFormed(Lines(content))
    ensures HasBlock(content) <==> exists i: nat, j: nat ::
      Block(Lines(content), i, j) && Chomp(Lines(content)[i]) == Bare(Lines(content)[i])
  {
    var lines := Lines(content);
    forall i | 0 <= i < |lines|
      ensures Marker(Chomp(lines[i])).Begin? <==> KindOf(lines[i]).Begin? && Chomp(lines[i]) == Bare(lines[i])
    {
      ChompedBegin(lines[i]);
    }
    hide Lines, KindOf, Marker, Chomp, Bare;
    if i :| 0 <= i < |lines| && Marker(Chomp(lines[i])).Begin? {
      assert !AllPlain(lines);
      var k: nat, j: nat :| Block(lines, k, j);
      assert k == i;
    }
  }

  /** Such a file: setup would replace the block, teardown reports that there is none. */
  lemma UnseenBlock()
    ensures var content := BEGIN_MARK + "\r\r\n" + (END_MARK + "\n");
      Strip(content) == Ok("") && !HasBlock(content)
  {
    var begin, end := BEGIN_MARK + "\r\r\n", END_MARK + "\n";
    UnseenBegin();
    MarkerLines();
    UnseenEnd();
    hide KindOf, Lines, Marker, Chomp, IsLine, ScanAll;
    OneLine(begin);
    OneLine(end);
    LinesAppend(begin, end);
    var lines := Lines(begin + end);
    assert lines == [begin, end];
    assert Block(lines, 0, 1);
    ScanBlock(lines, 0, 1);
    assert lines[..0] + lines[2..] == [];
  }

  lemma UnseenEnd()
    ensures Marker(Chomp(END_MARK + "\n")) == End(false)
  {
    var end := END_MARK + "\n";
    assert end[..|END_MARK|] == END_MARK && END_MARK[|END_MARK| - 1] == '<';
    MarkersDiffer();
  }

  lemma UnseenBegin()
    ensures var begin := BEGIN_MARK + "\r\r\n";
      && IsLine(begin) && Ended(begin) && KindOf(begin) == Begin(false) && Marker(Chomp(begin)).Plain?
  {
    var begin := BEGIN_MARK + "\r\r\n";
    var one, two := BEGIN_MARK + "\r\r", BEGIN_MARK + "\r";
    assert begin[..|one|] == one && one[..|two|] == two && two[..|BEGIN_MARK|] == BEGIN_MARK;
    assert BEGIN_MARK[|BEGIN_MARK| - 1] == '>';
    assert Bare(begin) == Bare(one) == Bare(two) == Bare(BEGIN_MARK) == BEGIN_MARK;
    BareOf(BEGIN_MARK);
    MarkersDiffer();
    BeginIsLine();
    assert forall i :: 0 <= i < |BEGIN_MARK| ==> (BEGIN_MARK + "\n")[i] == BEGIN_MARK[i];
    assert Chomp(begin) == two;
    assert two[|two| - 1] == '\r';
    assert Marker(two).Plain? by { LastOfMarkers(); }
  }

  lemma LastOfMarkers()
    ensures forall s: string :: !Marker(s).Plain? ==> s != "" && s[|s| - 1] != '\r'
  {
  }
}
