/**
 The export line of a validated configuration (simple-nfs-server/src/config.rs:64-253): one physical
 line that is never a block marker and whose first field still names the configured path.
 */
module ExportLine {
  import opened Wrappers
  import opened Text
  import opened SplitLines
  import opened ManagedBlock

  datatype MapMode = MapAll | MapRoot

  /** path is what remains after normalising its components. */
  datatype Server = Server(
    path: string, network: Option<string>, mask: Option<string>, hosts: seq<string>,
    mode: Option<MapMode>, identity: Option<string>, opts: seq<string>)

  // ---- What validation guarantees ----

  predicate Alphanumeric(c: char) {
    '0' <= c <= '9' || 'a' <= c <= 'z' || 'A' <= c <= 'Z'
  }

  predicate AllOf(s: string, others: string) {
    forall i :: 0 <= i < |s| ==> Alphanumeric(s[i]) || s[i] in others
  }

  /** What an IP address can be written with. */
  predicate AddressText(s: string) {
    s != "" && AllOf(s, ".:")
  }

  /** What an IP address or a DNS name can be written with. */
  predicate HostText(s: string) {
    AddressText(s) || (s != "" && AllOf(s, ".-"))
  }

  predicate OptionText(s: string) {
    |s| > 1 && s[0] == '-' && AllOf(s, "-_.=:")
  }

  predicate PathText(s: string) {
    s != "" && s[0] == '/' && forall i :: 0 <= i < |s| ==> !Control(s[i])
  }

  /** Config::validate; addressed is its verdict on the numeric network and mask. */
  predicate Validated(s: Server, addressed: bool) {
    var subnet := s.network.Some? || s.mask.Some?;
    && !(subnet && s.hosts != []) && (subnet || s.hosts != [])
    && (subnet ==> s.network.Some? && s.mask.Some?)
    && (s.mode.Some? ==> s.identity.Some?)
    && PathText(s.path)
    && (s.network.Some? && s.mask.Some? ==> addressed && AddressText(s.network.value) && AddressText(s.mask.value))
    && (forall i :: 0 <= i < |s.hosts| ==> HostText(s.hosts[i]))
    && (s.identity.Some? ==>
         s.mode.Some? && s.identity.value != "" && s.identity.value[0] != ':' && AllOf(s.identity.value, "-_.:"))
    && (forall i :: 0 <= i < |s.opts| ==> OptionText(s.opts[i]))
  }

  // ---- The line ----

  predicate Special(c: char) {
    c == ' ' || c == '\\' || c == '\'' || c == '"' || c == '#'
  }

  function Escape(path: string): string {
    if path == "" then ""
    else Escape(path[..|path| - 1]) + (if Special(path[|path| - 1]) then "\\" else "") + [path[|path| - 1]]
  }

  function Flag(s: Server): seq<string> {
    if s.mode.Some? && s.identity.Some? then
      [(if s.mode.value.MapAll? then "-mapall=" else "-maproot=") + s.identity.value]
    else []
  }

  function Clients(s: Server): seq<string> {
    if s.network.Some? && s.mask.Some? then ["-network " + s.network.value, "-mask " + s.mask.value] else s.hosts
  }

  function Parts(s: Server): seq<string> {
    [Escape(s.path)] + Flag(s) + s.opts + Clients(s)
  }

  /** parts.join(" ") */
  function Spaced(parts: seq<string>): string {
    if parts == [] then ""
    else if |parts| == 1 then parts[0]
    else Spaced(parts[..|parts| - 1]) + " " + parts[|parts| - 1]
  }

  function LineOf(s: Server): string {
    Spaced(Parts(s))
  }

  method BuildLine(s: Server) returns (line: string)
    ensures line == LineOf(s)
  {
    var path := "";
    for i := 0 to |s.path|
      invariant path == Escape(s.path[..i])
    {
      assert s.path[..i + 1][..i] == s.path[..i];
      if s.path[i] == ' ' || s.path[i] == '\\' || s.path[i] == '\'' || s.path[i] == '"' || s.path[i] == '#' {
        path := path + "\\";
      }
      path := path + [s.path[i]];
    }
    assert s.path[..|s.path|] == s.path;
    var parts := [path];
    if s.mode.Some? && s.identity.Some? {
      var flag := match s.mode.value case MapAll => "-mapall=" case MapRoot => "-maproot=";
      parts := parts + [flag + s.identity.value];
    }
    parts := parts + s.opts;
    if s.network.Some? && s.mask.Some? {
      parts := parts + ["-network " + s.network.value];
      parts := parts + ["-mask " + s.mask.value];
    } else {
      parts := parts + s.hosts;
    }
    assert parts == Parts(s);
    line := Spaced(parts);
  }

  // ---- One physical line ----

  predicate Visible(s: string) {
    forall i :: 0 <= i < |s| ==> !Control(s[i])
  }

  lemma {:induction false} EscapeVisible(path: string)
    requires Visible(path)
    ensures Visible(Escape(path))
    ensures path != "" && path[0] == '/' ==> Escape(path) != "" && Escape(path)[0] == '/'
  {
    if path != "" {
      EscapeVisible(path[..|path| - 1]);
      if |path| == 1 {
        assert path[..0] == "";
      }
    }
  }

  lemma AllOfVisible(s: string, others: string)
    requires AllOf(s, others) && Visible(others)
    ensures Visible(s)
  {
    forall i | 0 <= i < |s| ensures !Control(s[i]) {
      if s[i] in others {
        var k :| 0 <= k < |others| && others[k] == s[i];
      }
    }
  }

  lemma {:induction false} SpacedVisible(parts: seq<string>)
    requires forall i :: 0 <= i < |parts| ==> Visible(parts[i])
    ensures Visible(Spaced(parts))
    ensures parts != [] && parts[0] != "" ==> Spaced(parts) != "" && Spaced(parts)[0] == parts[0][0]
  {
    if |parts| > 1 {
      SpacedVisible(parts[..|parts| - 1]);
    }
  }

  lemma PartsVisible(s: Server, addressed: bool)
    requires Validated(s, addressed)
    ensures forall i :: 0 <= i < |Parts(s)| ==> Visible(Parts(s)[i])
    ensures Parts(s)[0] == Escape(s.path) && Escape(s.path) != "" && Escape(s.path)[0] == '/'
  {
    EscapeVisible(s.path);
    FlagVisible(s, addressed);
    ClientsVisible(s, addressed);
    hide Flag, Clients;
    forall i | 0 <= i < |s.opts| ensures Visible(s.opts[i]) {
      assert OptionText(s.opts[i]);
      AllOfVisible(s.opts[i], "-_.=:");
    }
  }

  lemma FlagVisible(s: Server, addressed: bool)
    requires Validated(s, addressed)
    ensures forall i :: 0 <= i < |Flag(s)| ==> Visible(Flag(s)[i])
  {
    if s.identity.Some? {
      AllOfVisible(s.identity.value, "-_.:");
    }
  }

  lemma ClientsVisible(s: Server, addressed: bool)
    requires Validated(s, addressed)
    ensures forall i :: 0 <= i < |Clients(s)| ==> Visible(Clients(s)[i])
  {
    if s.network.Some? && s.mask.Some? {
      AllOfVisible(s.network.value, ".:");
      AllOfVisible(s.mask.value, ".:");
    }
    forall i | 0 <= i < |s.hosts| ensures Visible(s.hosts[i]) {
      assert HostText(s.hosts[i]);
      if AddressText(s.hosts[i]) {
        AllOfVisible(s.hosts[i], ".:");
      } else {
        AllOfVisible(s.hosts[i], ".-");
      }
    }
  }

  /** The line of every validated configuration is one line and never a marker. */
  lemma ValidatedLineIsPlain(s: Server, addressed: bool)
    requires Validated(s, addressed)
    ensures Visible(LineOf(s)) && AllPlain(Lines(LineOf(s) + "\n"))
  {
    PartsVisible(s, addressed);
    SpacedVisible(Parts(s));
    PathLineIsPlain(LineOf(s));
  }

  lemma PathLineIsPlain(line: string)
    requires Visible(line) && line != "" && line[0] == '/'
    ensures AllPlain(Lines(line + "\n"))
  {
    assert forall i :: 0 <= i < |line| ==> line[i] != '\n' && line[i] != '\r';
    assert IsLine(line + "\n");
    OneLine(line + "\n");
    assert (line + "\n")[..|line|] == line;
    assert Bare(line + "\n") == line;
    TrimKeepsFirst(line);
  }

  lemma TrimKeepsFirst(line: string)
    requires line != "" && line[0] == '/'
    ensures Trim(line) != "" && Trim(line)[0] == '/'
  {
    assert TrimStart(line) == line;
    TrimEndKeepsFirst(line);
  }

  lemma {:induction false} TrimEndKeepsFirst(line: string)
    requires line != "" && !White(line[0])
    ensures TrimEnd(line) != "" && TrimEnd(line)[0] == line[0]
  {
    if White(line[|line| - 1]) {
      TrimEndKeepsFirst(line[..|line| - 1]);
    }
  }

  // ---- The path survives ----

  /** How a field of an exports file is read: a backslash takes the next character as it is, blank space
      ends the field.  The result is the field and what follows it. */
  function ReadField(s: string): (string, string) {
    if s == "" || s[0] == ' ' || s[0] == '\t' then ("", s)
    else if s[0] == '\\' && |s| > 1 then ([s[1]] + ReadField(s[2..]).0, ReadField(s[2..]).1)
    else ([s[0]] + ReadField(s[1..]).0, ReadField(s[1..]).1)
  }

  predicate Stops(tail: string) {
    tail == "" || tail[0] == ' '
  }

  function EscapeFront(path: string): string {
    if path == "" then "" else (if Special(path[0]) then "\\" else "") + [path[0]] + EscapeFront(path[1..])
  }

  lemma {:induction false} EscapeFrontAppend(path: string, c: char)
    ensures EscapeFront(path + [c]) == EscapeFront(path) + (if Special(c) then "\\" else "") + [c]
    decreases |path|
  {
    if path == "" {
      assert path + [c] == [c] && [c][1..] == "";
    } else {
      EscapeFrontAppend(path[1..], c);
      assert (path + [c])[1..] == path[1..] + [c];
    }
  }

  lemma {:induction false} EscapeIsFront(path: string)
    ensures Escape(path) == EscapeFront(path)
  {
    if path != "" {
      EscapeIsFront(path[..|path| - 1]);
      EscapeFrontAppend(path[..|path| - 1], path[|path| - 1]);
      assert path == path[..|path| - 1] + [path[|path| - 1]];
    }
  }

  /** Reading one escaped character. */
  lemma ReadOne(c: char, rest: string)
    requires !Control(c)
    ensures ReadField((if Special(c) then "\\" else "") + [c] + rest) == ([c] + ReadField(rest).0, ReadField(rest).1)
  {
    var s := (if Special(c) then "\\" else "") + [c] + rest;
    if Special(c) {
      assert s[0] == '\\' && s[1] == c && s[2..] == rest;
    } else {
      assert s[0] == c && s[1..] == rest;
    }
  }

  /** Reading an escaped path gives back the path, whatever follows the blank. */
  lemma {:induction false} ReadEscaped(path: string, tail: string)
    requires Visible(path) && Stops(tail)
    ensures ReadField(EscapeFront(path) + tail) == (path, tail)
    decreases |path|
  {
    if path == "" {
      assert "" + tail == tail;
    } else {
      var rest := EscapeFront(path[1..]) + tail;
      ReadEscaped(path[1..], tail);
      ReadOne(path[0], rest);
      hide ReadField, Special;
      assert EscapeFront(path) + tail == (if Special(path[0]) then "\\" else "") + [path[0]] + rest;
      assert path == [path[0]] + path[1..];
    }
  }

  /** The first field of a joined line, and the rest. */
  lemma {:induction false} SpacedFirst(parts: seq<string>) returns (tail: string)
    requires parts != []
    ensures Spaced(parts) == parts[0] + tail && Stops(tail)
  {
    if |parts| == 1 {
      tail := "";
    } else {
      var front := SpacedFirst(parts[..|parts| - 1]);
      tail := front + " " + parts[|parts| - 1];
    }
  }

  /** The exported path is the configured path, whatever special characters it holds. */
  lemma ExportedPathIsConfigured(s: Server, addressed: bool)
    requires Validated(s, addressed)
    ensures ReadField(LineOf(s)).0 == s.path
  {
    var tail := SpacedFirst(Parts(s));
    EscapeIsFront(s.path);
    ReadEscaped(s.path, tail);
  }

  /** Setup on any well-formed exports file: what was outside the block is kept, and running it again
      with another configuration is the same as running only that. */
  lemma SetupKeepsTheRest(content: string, s: Server, addressed: bool, stamp: string)
    requires Validated(s, addressed) && WellFormed(Lines(content)) && '\n' !in stamp
    ensures WithBlock(content, LineOf(s), stamp).Ok?
    ensures Strip(WithBlock(content, LineOf(s), stamp).value) == Ok(Terminated(Outside(Lines(content))))
    ensures forall line, stamp' ::
      WithBlock(WithBlock(content, LineOf(s), stamp).value, line, stamp') == WithBlock(content, line, stamp')
  {
    StripIsOutside(content);
    ValidatedLineIsPlain(s, addressed);
    hide Strip, Lines, KindOf, NewBlock, WithBlock, Validated, LineOf, Outside, WellFormed;
    StripOfRewritten(content, LineOf(s), stamp);
    forall line, stamp'
      ensures WithBlock(WithBlock(content, LineOf(s), stamp).value, line, stamp') == WithBlock(content, line, stamp')
    {
      RewriteAgain(content, LineOf(s), stamp, line, stamp');
    }
  }
}
