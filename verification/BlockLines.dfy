/**
 Which lines the exports helper takes for markers (simple-nfs-server/src/exports.rs:15-45), told from their text.
 */
module BlockLines {
  import opened Text
  import opened ManagedBlock

  /** s is m with nothing but white space around it. */
  predicate Around(s: string, m: string, i: nat, j: nat) {
    i <= j <= |s| && s[i..j] == m && Blank(s[..i]) && Blank(s[j..])
  }

  /** The whole text between the white space. */
  ghost predicate Framed(s: string, m: string) {
    exists i: nat, j: nat :: Around(s, m, i, j)
  }

  lemma {:induction false} StartIs(s: string) returns (i: nat)
    ensures i <= |s| && TrimStart(s) == s[i..] && Blank(s[..i]) && (i < |s| ==> !White(s[i]))
  {
    if s != "" && White(s[0]) {
      var k := StartIs(s[1..]);
      i := k + 1;
      assert s[1..][k..] == s[i..] && s[..i] == [s[0]] + s[1..][..k];
    } else {
      i := 0;
    }
  }

  lemma {:induction false} EndIs(s: string) returns (j: nat)
    ensures j <= |s| && TrimEnd(s) == s[..j] && Blank(s[j..]) && (j > 0 ==> !White(s[j - 1]))
  {
    if s != "" && White(s[|s| - 1]) {
      var front := s[..|s| - 1];
      j := EndIs(front);
      assert front[..j] == s[..j] && s[j..] == front[j..] + [s[|s| - 1]];
    } else {
      j := |s|;
    }
  }

  lemma TrimIs(s: string, m: string)
    requires m != "" && !White(m[0]) && !White(m[|m| - 1])
    ensures Trim(s) == m <==> Framed(s, m)
  {
    var i := StartIs(s);
    var rest := s[i..];
    var k := EndIs(rest);
    var j := i + k;
    assert Trim(s) == rest[..k] == s[i..j] && rest[k..] == s[j..];
    hide Trim;
    if Trim(s) == m {
      assert Around(s, m, i, j);
    }
    if a: nat, b: nat :| Around(s, m, a, b) {
      assert s[a] == m[0] && s[b - 1] == m[|m| - 1];
      BlankParts(s, a, i);
      BlankParts(s, i, a);
      BlankParts(s, b - 1, j);
      BlankParts(s, j - 1, b);
      assert a == i && b == j;
    }
  }

  lemma BlankParts(s: string, k: int, n: nat)
    requires 0 <= k < |s| && n <= |s|
    ensures Blank(s[..n]) && k < n ==> White(s[k])
    ensures Blank(s[n..]) && n <= k ==> White(s[k])
  {
    if k < n {
      assert s[..n][k] == s[k];
    } else {
      assert s[n..][k - n] == s[k];
    }
  }

  predicate IsMarker(s: string) {
    || s == "# >>> cider-nfs managed block >>>" || s == "# <<< cider-nfs managed block <<<"
    || s == "# >>> orchard-nfs managed block >>>" || s == "# <<< orchard-nfs managed block <<<"
  }

  /** A line without the newlines and carriage returns at its end. */
  predicate Content(line: string, text: string) {
    && |text| <= |line| && line[..|text|] == text
    && (forall k :: |text| <= k < |line| ==> line[k] == '\n' || line[k] == '\r')
    && (text == "" || (text[|text| - 1] != '\n' && text[|text| - 1] != '\r'))
  }

  lemma {:induction false} BareIs(line: string)
    ensures Content(line, Bare(line))
  {
    if line != "" && (line[|line| - 1] == '\n' || line[|line| - 1] == '\r') {
      BareIs(line[..|line| - 1]);
    }
  }

  predicate Breaks(c: char) {
    c == '\n' || c == '\r'
  }

  lemma ContentEnds(line: string, text: string, k: int)
    requires Content(line, text) && k < |line|
    ensures |text| <= k ==> Breaks(line[k])
    ensures text != "" ==> !Breaks(line[|text| - 1])
  {
    assert text != "" ==> line[|text| - 1] == text[|text| - 1];
  }

  lemma ContentUnique(line: string, a: string, b: string)
    requires Content(line, a) && Content(line, b)
    ensures a == b
  {
    ContentEnds(line, a, |b| - 1);
    ContentEnds(line, b, |a| - 1);
    hide Breaks;
    assert |a| == |b|;
  }

  lemma MarkersAre(s: string)
    ensures Marker(s) == Begin(false) <==> s == "# >>> cider-nfs managed block >>>"
    ensures Marker(s) == Begin(true) <==> s == "# >>> orchard-nfs managed block >>>"
    ensures Marker(s) == End(false) <==> s == "# <<< cider-nfs managed block <<<"
    ensures Marker(s) == End(true) <==> s == "# <<< orchard-nfs managed block <<<"
    ensures Marker(s).Plain? <==> !IsMarker(s)
    ensures IsMarker(s) ==> s != "" && !White(s[0]) && !White(s[|s| - 1])
  {
    assert BEGIN_MARK[2] == '>' && END_MARK[2] == '<' && LEGACY_BEGIN_MARK[2] == '>' && LEGACY_END_MARK[2] == '<';
    assert BEGIN_MARK[6] == 'c' && END_MARK[6] == 'c' && LEGACY_BEGIN_MARK[6] == 'o' && LEGACY_END_MARK[6] == 'o';
  }

  /** Some marker is all there is besides white space. */
  ghost predicate MarkerInside(text: string) {
    exists m :: IsMarker(m) && Framed(text, m)
  }

  /** Exactly which lines are markers, and which are refused because a marker is all there is on them besides
      white space: each of the two names has its own begin and end. */
  lemma KindExactly(line: string, text: string)
    requires Content(line, text)
    ensures KindOf(line) == Begin(false) <==> text == "# >>> cider-nfs managed block >>>"
    ensures KindOf(line) == End(false) <==> text == "# <<< cider-nfs managed block <<<"
    ensures KindOf(line) == Begin(true) <==> text == "# >>> orchard-nfs managed block >>>"
    ensures KindOf(line) == End(true) <==> text == "# <<< orchard-nfs managed block <<<"
    ensures KindOf(line).Padded? <==> !IsMarker(text) && MarkerInside(text)
  {
    BareIs(line);
    ContentUnique(line, text, Bare(line));
    MarkersAre(text);
    MarkersAre(Trim(text));
    hide Marker, Bare, Content, Framed;
    if IsMarker(text) {
      TrimIs(text, text);
      WholeFramed(text);
    }
    if IsMarker(Trim(text)) {
      TrimIs(text, Trim(text));
    }
    if m :| IsMarker(m) && Framed(text, m) {
      MarkersAre(m);
      TrimIs(text, m);
    }
    hide IsMarker, Trim;
  }

  lemma WholeFramed(s: string)
    ensures Framed(s, s)
  {
    assert Around(s, s, 0, |s|);
  }
}
