/**
 Splitting a text into lines that keep their newline (Rust's split_inclusive) and putting it together.
 */
module SplitLines {

  /** The length of the first line, its newline included. */
  function LineEnd(s: string): (n: nat)
    requires s != ""
    ensures 1 <= n <= |s|
    ensures forall i :: 0 <= i < n - 1 ==> s[i] != '\n'
    ensures n < |s| ==> s[n - 1] == '\n'
  {
    if s[0] == '\n' || |s| == 1 then 1 else 1 + LineEnd(s[1..])
  }

  function Lines(s: string): seq<string> {
    if s == "" then [] else [s[..LineEnd(s)]] + Lines(s[LineEnd(s)..])
  }

  function Join(lines: seq<string>): string {
    if lines == [] then "" else lines[0] + Join(lines[1..])
  }

  lemma JoinFirst(line: string, rest: seq<string>)
    ensures Join([line] + rest) == line + Join(rest)
  {
    assert ([line] + rest)[1..] == rest;
  }

  lemma JoinNone()
    ensures Join([]) == ""
  {
  }

  lemma {:induction false} JoinLines(s: string)
    ensures Join(Lines(s)) == s
    decreases |s|
  {
    hide Join, LineEnd;
    JoinNone();
    if s != "" {
      var first, rest := s[..LineEnd(s)], s[LineEnd(s)..];
      JoinLines(rest);
      JoinFirst(first, Lines(rest));
      assert s == first + rest;
    }
  }

  lemma {:induction false} JoinAppend(a: seq<string>, b: seq<string>)
    ensures Join(a + b) == Join(a) + Join(b)
  {
    hide Join;
    JoinNone();
    if a == [] {
      assert a + b == b;
    } else {
      JoinAppend(a[1..], b);
      JoinFirst(a[0], a[1..] + b);
      JoinFirst(a[0], a[1..]);
      assert a + b == [a[0]] + (a[1..] + b) && a == [a[0]] + a[1..];
      Associative(a[0], Join(a[1..]), Join(b));
    }
  }

  lemma Associative(a: string, b: string, c: string)
    ensures a + (b + c) == (a + b) + c
  {
  }

  predicate Ended(s: string) {
    s == "" || s[|s| - 1] == '\n'
  }

  /** A line: not empty, and a newline only at its end. */
  predicate IsLine(s: string) {
    s != "" && forall i :: 0 <= i < |s| - 1 ==> s[i] != '\n'
  }

  /** What splitting produces: lines, all but the last ended by a newline. */
  predicate Split(lines: seq<string>) {
    && (forall i :: 0 <= i < |lines| ==> IsLine(lines[i]))
    && forall i :: 0 <= i < |lines| - 1 ==> Ended(lines[i])
  }

  lemma {:induction false} LinesSplit(s: string)
    ensures Split(Lines(s))
    decreases |s|
  {
    if s != "" {
      LinesSplit(s[LineEnd(s)..]);
      assert IsLine(s[..LineEnd(s)]);
    }
  }

  lemma {:induction false} LineEndIs(s: string, n: nat)
    requires 1 <= n <= |s| && (forall i :: 0 <= i < n - 1 ==> s[i] != '\n') && (n < |s| ==> s[n - 1] == '\n')
    ensures LineEnd(s) == n
  {
    if n > 1 {
      assert s[0] != '\n';
      LineEndIs(s[1..], n - 1);
    }
  }

  /** A text whose lines are given. */
  lemma {:induction false} LinesJoin(lines: seq<string>)
    requires Split(lines)
    ensures Lines(Join(lines)) == lines
    decreases |lines|
  {
    if lines != [] {
      var s, rest := Join(lines), lines[1..];
      assert Split(rest) by {
        forall i | 0 <= i < |rest| ensures IsLine(rest[i]) && (i < |rest| - 1 ==> Ended(rest[i])) {
          assert rest[i] == lines[i + 1];
        }
      }
      LinesJoin(rest);
      assert IsLine(lines[0]) && (rest != [] ==> Ended(lines[0]));
      assert rest == [] ==> Join(rest) == "";
      LineEndIs(s, |lines[0]|);
      assert s[..|lines[0]|] == lines[0] && s[|lines[0]|..] == Join(rest);
    }
  }

  lemma SplitAppend(a: seq<string>, b: seq<string>)
    requires Split(a) && Split(b) && Ended(Join(a))
    ensures Split(a + b)
  {
    JoinEnded(a);
  }

  lemma {:induction false} JoinEnded(a: seq<string>)
    requires Split(a) && Ended(Join(a))
    ensures forall i :: 0 <= i < |a| ==> Ended(a[i])
  {
    if |a| == 1 {
      assert a[1..] == [] && Join(a) == a[0];
    } else if |a| > 1 {
      var rest := a[1..];
      assert Split(rest) by {
        forall i | 0 <= i < |rest| ensures IsLine(rest[i]) && (i < |rest| - 1 ==> Ended(rest[i])) {
          assert rest[i] == a[i + 1];
        }
      }
      assert Join(rest) != "" by { assert IsLine(rest[0]); }
      assert Ended(Join(rest));
      JoinEnded(rest);
      forall i | 0 <= i < |a| ensures Ended(a[i]) {
        if i > 0 {
          assert a[i] == rest[i - 1];
        }
      }
    }
  }

  /** Text ended by a newline can be split separately. */
  lemma LinesAppend(a: string, b: string)
    requires Ended(a)
    ensures Lines(a + b) == Lines(a) + Lines(b)
  {
    LinesSplit(a);
    LinesSplit(b);
    JoinLines(a);
    JoinLines(b);
    SplitAppend(Lines(a), Lines(b));
    JoinAppend(Lines(a), Lines(b));
    LinesJoin(Lines(a) + Lines(b));
  }

  lemma OneLine(s: string)
    requires IsLine(s)
    ensures Lines(s) == [s]
  {
    LineEndIs(s, |s|);
    assert s[..|s|] == s && s[|s|..] == "";
  }

  /** Lines before another line all end with a newline. */
  lemma PrefixEnded(lines: seq<string>, i: nat)
    requires Split(lines) && i < |lines|
    ensures Split(lines[..i]) && Split(lines[i + 1..]) && Ended(Join(lines[..i]))
  {
    var front := lines[..i];
    forall k | 0 <= k < |front| ensures IsLine(front[k]) && Ended(front[k]) {
      assert front[k] == lines[k];
    }
    AllEnded(front);
    var back := lines[i + 1..];
    forall k | 0 <= k < |back| ensures IsLine(back[k]) && (k < |back| - 1 ==> Ended(back[k])) {
      assert back[k] == lines[i + 1 + k];
    }
  }

  lemma {:induction false} AllEnded(a: seq<string>)
    requires forall i :: 0 <= i < |a| ==> Ended(a[i])
    ensures Ended(Join(a))
  {
    if a != [] {
      forall i | 0 <= i < |a[1..]| ensures Ended(a[1..][i]) {
        assert a[1..][i] == a[i + 1];
      }
      AllEnded(a[1..]);
    }
  }
}
