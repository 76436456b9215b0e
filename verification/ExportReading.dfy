/**
 What an exports file says once it is set up (simple-nfs-server/src/config.rs:181-211,
 simple-nfs-server/src/exports.rs:57-77): the fields of the export line, and where that line stands.
 */
module ExportReading {
  import opened Wrappers
  import opened Text
  import opened SplitLines
  import opened ManagedBlock
  import opened ExportLine

  lemma {:induction false} ReadFieldShorter(s: string)
    ensures |ReadField(s).1| <= |s|
    ensures ReadField(s).1 == "" || ReadField(s).1[0] == ' ' || ReadField(s).1[0] == '\t'
    decreases |s|
  {
    if s == "" || s[0] == ' ' || s[0] == '\t' {
    } else if s[0] == '\\' && |s| > 1 {
      ReadFieldShorter(s[2..]);
    } else {
      ReadFieldShorter(s[1..]);
    }
  }

  /** The blank-separated fields of a line, as a reader of exports files takes them. */
  function Fields(line: string): seq<string>
    decreases |line|
  {
    var (field, rest) := ReadField(line);
    ReadFieldShorter(line);
    if rest == "" then [field] else [field] + Fields(rest[1..])
  }

  /** Nothing in the word ends a field or escapes anything. */
  predicate PlainWord(w: string) {
    ' ' !in w && '\t' !in w && '\\' !in w
  }

  lemma {:induction false} ReadWord(w: string, tail: string)
    requires PlainWord(w) && Stops(tail)
    ensures ReadField(w + tail) == (w, tail)
    decreases |w|
  {
    if w == "" {
      assert w + tail == tail;
    } else {
      assert w[0] in w;
      assert PlainWord(w[1..]) by {
        forall c | c in w[1..] ensures c in w {
        }
      }
      ReadWord(w[1..], tail);
      assert (w + tail)[1..] == w[1..] + tail;
      assert w == [w[0]] + w[1..];
    }
  }

  // ---- Words after the first field ----

  /** Each word after a blank. */
  function Tail(words: seq<string>): string {
    if words == [] then "" else Tail(words[..|words| - 1]) + " " + words[|words| - 1]
  }

  lemma {:induction false} TailFront(words: seq<string>)
    requires words != []
    ensures Tail(words) == " " + words[0] + Tail(words[1..])
    decreases |words|
  {
    var front, last := words[..|words| - 1], words[|words| - 1];
    if front == [] {
      assert words[1..] == [] && words[0] == last;
    } else {
      TailFront(front);
      TailLast(words, front, last);
      TailLast(words[1..], front[1..], last);
      hide Tail;
      Regroup(" " + front[0], Tail(front[1..]), last);
    }
  }

  lemma Regroup(a: string, b: string, last: string)
    ensures a + b + " " + last == a + (b + " " + last)
  {
  }

  lemma TailLast(words: seq<string>, front: seq<string>, last: string)
    requires words == front + [last]
    ensures Tail(words) == Tail(front) + " " + last
  {
    assert words[..|words| - 1] == front;
  }

  lemma {:induction false} SpacedTail(first: string, words: seq<string>)
    ensures Spaced([first] + words) == first + Tail(words)
    decreases |words|
  {
    if words == [] {
      assert [first] + words == [first];
    } else {
      var front := words[..|words| - 1];
      SpacedTail(first, front);
      assert ([first] + words)[..|words|] == [first] + front;
    }
  }

  lemma {:induction false} FieldsOfTail(words: seq<string>)
    requires words != [] && forall i :: 0 <= i < |words| ==> PlainWord(words[i])
    ensures Fields(Tail(words)[1..]) == words
    decreases |words|
  {
    var rest := words[1..];
    TailFront(words);
    assert Tail(words)[1..] == words[0] + Tail(rest);
    if rest == [] {
      ReadWord(words[0], Tail(rest));
      assert words == [words[0]];
    } else {
      TailFront(rest);
      ReadWord(words[0], Tail(rest));
      FieldsOfTail(rest);
      assert words == [words[0]] + rest;
    }
  }

  // ---- The export line ----

  /** What follows the path: who is mapped, the extra options, and for whom. */
  function WordsOf(s: Server): seq<string>
    requires s.mode.Some? ==> s.identity.Some?
    requires s.network.Some? ==> s.mask.Some?
  {
    (if s.mode.None? then []
     else if s.mode.value == MapAll then ["-mapall=" + s.identity.value]
     else ["-maproot=" + s.identity.value])
    + s.opts
    + (if s.network.Some? then ["-network", s.network.value, "-mask", s.mask.value] else s.hosts)
  }

  lemma TailSplits(words: seq<string>, network: string, mask: string)
    ensures Tail(words + ["-network " + network, "-mask " + mask])
      == Tail(words + ["-network", network, "-mask", mask])
  {
    TailTwo(words, "-network " + network, "-mask " + mask);
    TailTwo(words, "-network", network);
    TailTwo(words + ["-network", network], "-mask", mask);
    assert words + ["-network", network] + ["-mask", mask] == words + ["-network", network, "-mask", mask];
    hide Tail;
    var head := Tail(words) + " -network " + network;
    assert Tail(words) + " " + ("-network " + network) == head;
    assert Tail(words) + " " + "-network" + " " + network == head;
    assert head + " " + ("-mask " + mask) == head + " " + "-mask" + " " + mask;
  }

  lemma TailTwo(words: seq<string>, a: string, b: string)
    ensures Tail(words + [a, b]) == Tail(words) + " " + a + " " + b
  {
    assert (words + [a, b])[..|words| + 1] == words + [a];
    assert (words + [a])[..|words|] == words;
  }

  lemma AllOfPlain(s: string, others: string)
    requires AllOf(s, others) && PlainWord(others)
    ensures PlainWord(s)
  {
  }

  lemma FlagPlain(flag: string, s: string)
    requires PlainWord(flag) && PlainWord(s)
    ensures PlainWord(flag + s)
  {
  }

  lemma WordsPlain(s: Server, addressed: bool)
    requires Validated(s, addressed)
    ensures WordsOf(s) != [] && forall i :: 0 <= i < |WordsOf(s)| ==> PlainWord(WordsOf(s)[i])
  {
    if s.mode.Some? {
      AllOfPlain(s.identity.value, "-_.:");
      FlagPlain("-mapall=", s.identity.value);
      FlagPlain("-maproot=", s.identity.value);
    }
    forall i | 0 <= i < |s.opts| ensures PlainWord(s.opts[i]) {
      assert OptionText(s.opts[i]);
      AllOfPlain(s.opts[i], "-_.=:");
    }
    ClientsPlain(s, addressed);
    hide PlainWord, OptionText, HostText, AddressText, PathText, AllOf;
  }

  lemma ClientsPlain(s: Server, addressed: bool)
    requires Validated(s, addressed)
    ensures PlainWord("-network") && PlainWord("-mask")
    ensures s.network.Some? ==> PlainWord(s.network.value) && PlainWord(s.mask.value)
    ensures forall i :: 0 <= i < |s.hosts| ==> PlainWord(s.hosts[i])
  {
    if s.network.Some? {
      AllOfPlain(s.network.value, ".:");
      AllOfPlain(s.mask.value, ".:");
    }
    forall i | 0 <= i < |s.hosts| ensures PlainWord(s.hosts[i]) {
      assert HostText(s.hosts[i]);
      if AddressText(s.hosts[i]) {
        AllOfPlain(s.hosts[i], ".:");
      } else {
        AllOfPlain(s.hosts[i], ".-");
      }
    }
  }

  lemma LineIsTail(s: Server, addressed: bool)
    requires Validated(s, addressed)
    ensures LineOf(s) == Escape(s.path) + Tail(WordsOf(s))
  {
    var words := Flag(s) + s.opts;
    assert Parts(s) == [Escape(s.path)] + (words + Clients(s));
    SpacedTail(Escape(s.path), words + Clients(s));
    if s.network.Some? {
      TailSplits(words, s.network.value, s.mask.value);
      assert WordsOf(s) == words + ["-network", s.network.value, "-mask", s.mask.value];
    } else {
      assert WordsOf(s) == words + s.hosts;
    }
  }

  /** Read back, the line of a validated configuration names the configured path, the mapped identity under the
      configured mode, every option as given, and the configured network or hosts; nothing else. */
  lemma LineSays(s: Server, addressed: bool)
    requires Validated(s, addressed)
    ensures Fields(LineOf(s)) == [s.path] + WordsOf(s)
  {
    LineIsTail(s, addressed);
    WordsPlain(s, addressed);
    var words := WordsOf(s);
    TailFront(words);
    EscapeIsFront(s.path);
    ReadEscaped(s.path, Tail(words));
    FieldsOfTail(words);
    hide ReadField, Escape, EscapeFront, LineOf, Tail, WordsOf, PlainWord;
  }

  /** After setup the file is what was outside the block, then the block: both markers, the note and this line. */
  lemma FileSays(content: string, s: Server, addressed: bool, stamp: string)
    requires Validated(s, addressed) && WellFormed(Lines(content)) && '\n' !in stamp
    ensures WithBlock(content, LineOf(s), stamp).Ok?
    ensures Lines(WithBlock(content, LineOf(s), stamp).value) ==
      Lines(Terminated(Outside(Lines(content))))
        + ["# >>> cider-nfs managed block >>>\n", "# generated " + stamp + " by simple-nfs-server setup-server\n",
           LineOf(s) + "\n", "# <<< cider-nfs managed block <<<\n"]
  {
    StripIsOutside(content);
    PartsVisible(s, addressed);
    SpacedVisible(Parts(s));
    hide Lines, Strip, KindOf, Parts, Spaced, Outside, NewBlock, Visible, Validated, Escape;
    EndsWithNewline(Outside(Lines(content)));
    BlockLines(Terminated(Outside(Lines(content))), LineOf(s), stamp);
    hide Terminated, LineOf, Ended;
  }

  lemma BlockLines(kept: string, line: string, stamp: string)
    requires Ended(kept) && '\n' !in stamp && Visible(line) && line != ""
    ensures Lines(kept + NewBlock(line, stamp)) ==
      Lines(kept)
        + ["# >>> cider-nfs managed block >>>\n", "# generated " + stamp + " by simple-nfs-server setup-server\n",
           line + "\n", "# <<< cider-nfs managed block <<<\n"]
  {
    RewrittenLines(kept, line, stamp);
    OneVisibleLine(line);
    MarkTexts(stamp);
    hide Lines, NewBlock, Visible, Ended;
    FourLines(Lines(kept), "# >>> cider-nfs managed block >>>\n",
      "# generated " + stamp + " by simple-nfs-server setup-server\n", line + "\n",
      "# <<< cider-nfs managed block <<<\n");
  }

  lemma FourLines(kept: seq<string>, a: string, b: string, c: string, d: string)
    ensures kept + [a] + [b] + [c] + [d] == kept + [a, b, c, d]
  {
  }

  lemma MarkTexts(stamp: string)
    ensures BEGIN_MARK + "\n" == "# >>> cider-nfs managed block >>>\n"
    ensures END_MARK + "\n" == "# <<< cider-nfs managed block <<<\n"
    ensures NOTE + stamp + NOTE_END + "\n" == "# generated " + stamp + " by simple-nfs-server setup-server\n"
  {
  }

  lemma EndsWithNewline(s: string)
    ensures Ended(Terminated(s))
  {
  }

  lemma OneVisibleLine(line: string)
    requires Visible(line) && line != ""
    ensures Lines(line + "\n") == [line + "\n"]
  {
    assert forall i :: 0 <= i < |line| ==> line[i] != '\n';
    assert IsLine(line + "\n");
    OneLine(line + "\n");
  }
}
