/**
 The text of a cursor (server/src/read_api.rs:346 and 567-573): key.expires.offset, read back exactly.
 */
module CursorText {
  import opened Wrappers

  const MAX_I64: nat := 0x7FFF_FFFF_FFFF_FFFF
  const MAX_USIZE: nat := 0xFFFF_FFFF_FFFF_FFFF

  predicate Digit(c: char) {
    '0' <= c <= '9'
  }

  /** The decimal form of a number. */
  function Decimal(n: nat): (s: string)
    ensures s != "" && forall i :: 0 <= i < |s| ==> Digit(s[i])
  {
    if n < 10 then [('0' as int + n) as char] else Decimal(n / 10) + [('0' as int + n % 10) as char]
  }

  /** A run of digits, at least one. */
  function ReadDigits(s: string): Option<nat> {
    if s == "" || !Digit(s[|s| - 1]) then None
    else
      var last := s[|s| - 1] as int - '0' as int;
      if |s| == 1 then Some(last)
      else
        var front := ReadDigits(s[..|s| - 1]);
        if front.None? then None else Some(front.value * 10 + last)
  }

  /** str::parse::<usize> */
  function ReadUnsigned(s: string): Option<nat> {
    var n := ReadDigits(if s != "" && s[0] == '+' then s[1..] else s);
    if n.Some? && n.value <= MAX_USIZE then n else None
  }

  /** str::parse::<i64> */
  function ReadSigned(s: string): Option<int> {
    if s != "" && s[0] == '-' then
      var n := ReadDigits(s[1..]);
      if n.Some? && n.value <= MAX_I64 + 1 then Some(0 - n.value as int) else None
    else
      var n := ReadDigits(if s != "" && s[0] == '+' then s[1..] else s);
      if n.Some? && n.value <= MAX_I64 then Some(n.value) else None
  }

  lemma {:induction false} ReadDecimal(n: nat)
    ensures ReadDigits(Decimal(n)) == Some(n)
  {
    if n >= 10 {
      ReadDecimal(n / 10);
      var s := Decimal(n);
      assert s[..|s| - 1] == Decimal(n / 10);
    }
  }

  /** More text for the last part. */
  function Extend(parts: seq<string>, text: string): (r: seq<string>)
    requires parts != []
    ensures r != []
  {
    parts[..|parts| - 1] + [parts[|parts| - 1] + text]
  }

  /** str::split('.') */
  function Parts(s: string): (parts: seq<string>)
    ensures parts != []
  {
    if s == "" then [""]
    else if s[|s| - 1] == '.' then Parts(s[..|s| - 1]) + [""]
    else Extend(Parts(s[..|s| - 1]), [s[|s| - 1]])
  }

  predicate NoDot(s: string) {
    forall i :: 0 <= i < |s| ==> s[i] != '.'
  }

  lemma ExtendTwice(parts: seq<string>, a: string, b: string)
    requires parts != []
    ensures Extend(Extend(parts, a), b) == Extend(parts, a + b)
  {
    assert parts[|parts| - 1] + a + b == parts[|parts| - 1] + (a + b);
  }

  lemma ExtendNothing(parts: seq<string>)
    requires parts != []
    ensures Extend(parts, "") == parts
  {
    assert parts[|parts| - 1] + "" == parts[|parts| - 1];
  }

  lemma {:induction false} PartsAppend(s: string, t: string)
    requires NoDot(t)
    ensures Parts(s + t) == Extend(Parts(s), t)
    decreases |t|
  {
    hide Parts, Extend;
    if t == "" {
      assert s + t == s;
      ExtendNothing(Parts(s));
    } else {
      var front, last := t[..|t| - 1], t[|t| - 1];
      PartsAppend(s, front);
      ExtendTwice(Parts(s), front, [last]);
      PartsLast(s + front, last);
      assert front + [last] == t && (s + front) + [last] == s + t;
    }
  }

  lemma PartsLast(s: string, c: char)
    ensures Parts(s + [c]) == if c == '.' then Parts(s) + [""] else Extend(Parts(s), [c])
  {
    assert (s + [c])[..|s|] == s;
  }

  lemma PartsDot(s: string, t: string)
    requires NoDot(t)
    ensures Parts(s + "." + t) == Parts(s) + [t]
  {
    PartsLast(s, '.');
    PartsAppend(s + ".", t);
    hide Parts;
    assert "" + t == t;
  }

  lemma PartsNoDot(t: string)
    requires NoDot(t)
    ensures Parts(t) == [t]
  {
    PartsAppend("", t);
    assert "" + t == t;
  }

  // ---- Cursors ----

  datatype Cursor = Cursor(key: string, expires: int, offset: nat)

  function Format(c: Cursor): string
    requires c.expires >= 0
  {
    c.key + "." + Decimal(c.expires) + "." + Decimal(c.offset)
  }

  /** parse_cursor; isUuid is the verdict of the UUID parser, which accepts no dot. */
  function Parse(s: string, isUuid: string -> bool): Option<Cursor> {
    var parts := Parts(s);
    if |parts| != 3 || !isUuid(parts[0]) then None
    else
      var expires, offset := ReadSigned(parts[1]), ReadUnsigned(parts[2]);
      if expires.None? || offset.None? then None else Some(Cursor(parts[0], expires.value, offset.value))
  }

  /** Every cursor the server hands out is read back as it was meant. */
  lemma CursorRoundTrip(c: Cursor, isUuid: string -> bool)
    requires NoDot(c.key) && isUuid(c.key) && 0 <= c.expires <= MAX_I64 && c.offset <= MAX_USIZE
    ensures Parse(Format(c), isUuid) == Some(c)
  {
    hide Parts, Decimal, ReadDigits;
    var e, o := Decimal(c.expires), Decimal(c.offset);
    ReadDecimal(c.expires);
    ReadDecimal(c.offset);
    assert Digit(e[0]) && Digit(o[0]);
    FormatParts(c);
    hide Format;
  }

  lemma FormatParts(c: Cursor)
    requires NoDot(c.key) && c.expires >= 0
    ensures Parts(Format(c)) == [c.key, Decimal(c.expires), Decimal(c.offset)]
  {
    hide Parts, Decimal;
    PartsNoDot(c.key);
    PartsDot(c.key, Decimal(c.expires));
    PartsDot(c.key + "." + Decimal(c.expires), Decimal(c.offset));
  }
}
