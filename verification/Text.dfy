/** The string functions of the Go library that the stores and the scanner rely on. */
module Text {

  /** `unicode.IsSpace` */
  predicate Space(c: char) {
    '\t' <= c <= '\r' || c in {' ', '\U{0085}', '\U{00A0}', '\U{1680}', '\U{2028}', '\U{2029}', '\U{202f}', '\U{205f}', '\U{3000}'} ||
    '\U{2000}' <= c <= '\U{200a}'
  }

  function TrimSpace(s: string): string {
    if s != [] && Space(s[0]) then TrimSpace(s[1..])
    else if s != [] && Space(s[|s| - 1]) then TrimSpace(s[..|s| - 1])
    else s
  }

  /** `len` of a Go string: the bytes of its UTF-8 encoding. */
  function ByteLength(s: string): nat {
    if s == [] then 0
    else
      var c := s[0] as int;
      (if c < 0x80 then 1 else if c < 0x800 then 2 else if c < 0x1_0000 then 3 else 4) + ByteLength(s[1..])
  }

  /** `s[low..high]` is left when only spaces are cut off at both ends. */
  predicate CutsSpace(s: string, low: nat, high: nat) {
    && low <= high <= |s|
    && (forall k | 0 <= k < low :: Space(s[k]))
    && (forall k | high <= k < |s| :: Space(s[k]))
  }

  /** Trimming cuts off spaces and nothing else, all of them, so trimming again changes nothing. */
  lemma {:induction false} Trimmed(s: string) returns (low: nat, high: nat)
    ensures CutsSpace(s, low, high) && TrimSpace(s) == s[low..high]
    ensures var t := TrimSpace(s); t != [] ==> !Space(t[0]) && !Space(t[|t| - 1])
    ensures TrimSpace(TrimSpace(s)) == TrimSpace(s)
    decreases |s|
  {
    if s != [] && Space(s[0]) {
      low, high := Trimmed(s[1..]);
      low, high := low + 1, high + 1;
    } else if s != [] && Space(s[|s| - 1]) {
      low, high := Trimmed(s[..|s| - 1]);
    } else {
      low, high := 0, |s|;
    }
  }

  /** In plain text these are the blank and the five control characters from tab to carriage return. */
  lemma PlainSpaces(c: char)
    requires c as int < 0x80
    ensures Space(c) <==> c == ' ' || 9 <= c as int <= 13
  {}

  /** A string has at least a byte for each character, at most four, and exactly one each in plain text. */
  lemma {:induction false} ByteLengthBounds(s: string)
    ensures |s| <= ByteLength(s) <= 4 * |s|
    ensures ByteLength(s) == |s| <==> forall k | 0 <= k < |s| :: s[k] as int < 0x80
  {
    if s != [] {
      ByteLengthBounds(s[1..]);
      assert s[1..] == s[1..|s|];
      assert forall k | 0 < k < |s| :: s[k] == s[1..][k - 1];
      assert (forall k | 0 <= k < |s| :: s[k] as int < 0x80) ==> forall k | 0 <= k < |s[1..]| :: s[1..][k] == s[k + 1];
    }
  }
}
