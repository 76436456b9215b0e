/**
 The character classes of Rust strings that the modelled checks rely on.
 */
module Text {
  /** char::is_whitespace: the Unicode White_Space property. */
  predicate White(c: char) {
    var n := c as int;
    || 9 <= n <= 13 || n == 32 || n == 0x85 || n == 0xA0 || n == 0x1680 || 0x2000 <= n <= 0x200A
    || n == 0x2028 || n == 0x2029 || n == 0x202F || n == 0x205F || n == 0x3000
  }

  /** char::is_control: general category Cc. */
  predicate Control(c: char) {
    var n := c as int;
    n <= 31 || 127 <= n <= 159
  }

  function Width(c: char): nat {
    var n := c as int;
    if n < 0x80 then 1 else if n < 0x800 then 2 else if n < 0x1_0000 then 3 else 4
  }

  /** str::len: the number of UTF-8 bytes. */
  function Bytes(s: string): nat {
    if s == "" then 0 else Bytes(s[..|s| - 1]) + Width(s[|s| - 1])
  }

  /** s.trim().is_empty() */
  predicate Blank(s: string) {
    forall i :: 0 <= i < |s| ==> White(s[i])
  }
}
