/** Small shared vocabulary: Go's (value, error) returns, byte strings and the
    ASCII character classes that several of the rules below test. */
module Base {

  /** A Go pointer or an optional value: nil or present. */
  datatype Option<+T> = None | Some(value: T)

  /** A Go error value; only its message is kept. */
  datatype Error = Error(message: string)

  /** The result of a Go call that returns (value, err). */
  datatype Result<+T> = Ok(value: T) | Err(error: Error)

  newtype byte = x: int | 0 <= x < 256

  /** A Go []byte. */
  type Bytes = seq<byte>

  predicate IsAsciiDigit(c: char) {
    '0' <= c <= '9'
  }

  predicate IsAsciiLower(c: char) {
    'a' <= c <= 'z'
  }

  /** strings.ToUpper restricted to one ASCII character: lower-case letters are
      shifted to upper case, every other character is returned as it is. */
  function ToUpperAscii(c: char): (u: char)
    ensures IsAsciiLower(c) ==> u != c && 'A' <= u <= 'Z' && u as int + 32 == c as int
    ensures !IsAsciiLower(c) ==> u == c
  {
    if IsAsciiLower(c) then (c as int - 32) as char else c
  }

  /** Go's string(b) for bytes that each stand for one character. */
  function BytesToString(b: Bytes): (s: string)
    ensures |s| == |b|
    ensures forall i :: 0 <= i < |b| ==> s[i] as int == b[i] as int
  {
    seq(|b|, i requires 0 <= i < |b| => b[i] as int as char)
  }

  /** Go's []byte(s) for a string whose characters each fit in one byte. */
  function StringToBytes(s: string): (b: Bytes)
    requires forall i :: 0 <= i < |s| ==> s[i] as int < 256
    ensures |b| == |s|
    ensures forall i :: 0 <= i < |s| ==> b[i] as int == s[i] as int
  {
    seq(|s|, i requires 0 <= i < |s| => s[i] as int as byte)
  }

  /** A UTF-8 continuation byte, 10xxxxxx. */
  predicate IsContinuation(c: char) {
    0x80 <= c as int < 0xC0
  }

  /** The byte string is well-formed UTF-8 (section 4 of RFC 3629): each
      sequence is one ASCII byte, or a lead byte C2..F4 followed by the right
      number of continuation bytes, with no overlong form, no surrogate and
      nothing above U+10FFFF. */
  predicate ValidUtf8(s: string)
    decreases |s|
  {
    if s == [] then true
    else
      var b := s[0] as int;
      if b < 0x80 then ValidUtf8(s[1..])
      else if 0xC2 <= b < 0xE0 then
        |s| >= 2 && IsContinuation(s[1]) && ValidUtf8(s[2..])
      else if 0xE0 <= b < 0xF0 then
        |s| >= 3 && IsContinuation(s[1]) && IsContinuation(s[2]) &&
        (b == 0xE0 ==> s[1] as int >= 0xA0) && (b == 0xED ==> s[1] as int < 0xA0) &&
        ValidUtf8(s[3..])
      else if 0xF0 <= b < 0xF5 then
        |s| >= 4 && IsContinuation(s[1]) && IsContinuation(s[2]) && IsContinuation(s[3]) &&
        (b == 0xF0 ==> s[1] as int >= 0x90) && (b == 0xF4 ==> s[1] as int < 0x90) &&
        ValidUtf8(s[4..])
      else false
  }

  /** ASCII text is valid UTF-8. */
  lemma {:induction false} AsciiIsValidUtf8(s: string)
    requires forall i :: 0 <= i < |s| ==> s[i] as int < 0x80
    ensures ValidUtf8(s)
  {
    if s != [] {
      assert forall i :: 0 <= i < |s[1..]| ==> s[1..][i] == s[i + 1];
      AsciiIsValidUtf8(s[1..]);
    }
  }

  /** A lone byte 80..FF is not valid UTF-8: such a byte is either a
      continuation byte with no lead, an overlong lead, a lead with nothing
      after it, or never allowed. */
  lemma LoneHighByteInvalid(c: char)
    requires 0x80 <= c as int < 0x100
    ensures !ValidUtf8([c])
  {
  }

  lemma BytesStringRoundTrip(b: Bytes)
    ensures forall i :: 0 <= i < |BytesToString(b)| ==> BytesToString(b)[i] as int < 256
    ensures StringToBytes(BytesToString(b)) == b
  {
  }
}
