/**
 Standard base64 with padding (section 4 of RFC 4648), as the decoder of Go's library
 reads it: carriage returns and newlines are skipped, trailing bits are not checked.
 */
module Base64 {
  import opened Wrappers

  type Byte = b: int | 0 <= b < 256

  const PAD := '='

  // The character of a six-bit value: A-Z, a-z, 0-9, + and /.
  function Char(v: int): (c: char)
    requires 0 <= v < 64
    ensures Value(c) == Some(v)
  {
    if v < 26 then ('A' as int + v) as char
    else if v < 52 then ('a' as int + v - 26) as char
    else if v < 62 then ('0' as int + v - 52) as char
    else if v == 62 then '+'
    else '/'
  }

  function Value(c: char): (v: Option<int>)
    ensures v.Some? ==> 0 <= v.value < 64
  {
    if 'A' <= c <= 'Z' then Some(c as int - 'A' as int)
    else if 'a' <= c <= 'z' then Some(c as int - 'a' as int + 26)
    else if '0' <= c <= '9' then Some(c as int - '0' as int + 52)
    else if c == '+' then Some(62)
    else if c == '/' then Some(63)
    else None
  }

  function Encode(b: seq<Byte>): string {
    if |b| == 0 then ""
    else if |b| == 1 then [Char(b[0] / 4), Char(b[0] % 4 * 16), PAD, PAD]
    else if |b| == 2 then [Char(b[0] / 4), Char(b[0] % 4 * 16 + b[1] / 16), Char(b[1] % 16 * 4), PAD]
    else
      [Char(b[0] / 4), Char(b[0] % 4 * 16 + b[1] / 16), Char(b[1] % 16 * 4 + b[2] / 64), Char(b[2] % 64)] + Encode(b[3..])
  }

  function Skipped(s: string): string {
    if s == "" then ""
    else (if s[0] == '\r' || s[0] == '\n' then "" else [s[0]]) + Skipped(s[1..])
  }

  // One padded group can only be the last.
  function DecodeGroups(s: string): Option<seq<Byte>> {
    if s == "" then Some([])
    else if |s| < 4 || Value(s[0]).None? || Value(s[1]).None? then None
    else
      var x, y := Value(s[0]).value, Value(s[1]).value;
      if s[2] == PAD then
        if |s| == 4 && s[3] == PAD then Some([x * 4 + y / 16]) else None
      else if Value(s[2]).None? then None
      else
        var z := Value(s[2]).value;
        if s[3] == PAD then
          if |s| == 4 then Some([x * 4 + y / 16, y % 16 * 16 + z / 4]) else None
        else if Value(s[3]).None? then None
        else
          match DecodeGroups(s[4..])
          case None => None
          case Some(rest) => Some([x * 4 + y / 16, y % 16 * 16 + z / 4, z % 4 * 64 + Value(s[3]).value] + rest)
  }

  function Decode(s: string): Option<seq<Byte>> {
    DecodeGroups(Skipped(s))
  }

  /******* Round trip *******/

  predicate Encoded(c: char) {
    Value(c).Some? || c == PAD
  }

  lemma {:induction false} EncodeIsPlain(b: seq<Byte>)
    ensures forall c :: c in Encode(b) ==> Encoded(c)
    ensures b != [] ==> Encode(b) != "" && Value(Encode(b)[0]).Some?
  {
    hide Value;
    if |b| >= 3 {
      EncodeIsPlain(b[3..]);
    }
  }

  lemma {:induction false} NothingSkipped(s: string)
    requires forall c :: c in s ==> Encoded(c)
    ensures Skipped(s) == s
  {
    if s != "" {
      assert s[0] in s;
      assert Value('\r').None? && Value('\n').None?;
      NothingSkipped(s[1..]);
    }
  }

  // Six-bit values put together again.
  lemma BitsRejoin(a: Byte, b: Byte, c: Byte)
    ensures a / 4 * 4 + (a % 4 * 16 + b / 16) / 16 == a
    ensures (a % 4 * 16 + b / 16) % 16 * 16 + (b % 16 * 4 + c / 64) / 4 == b
    ensures (b % 16 * 4 + c / 64) % 4 * 64 + c % 64 == c
  {
  }

  lemma ShortGroups(a: Byte, b: Byte)
    ensures DecodeGroups(Encode([a])) == Some([a]) && DecodeGroups(Encode([a, b])) == Some([a, b])
  {
    PadIsNoValue();
    hide Value;
    BitsRejoin(a, 0, 0);
    BitsRejoin(a, b, 0);
  }

  lemma FullGroup(a: Byte, b: Byte, c: Byte, rest: string)
    ensures var s := [Char(a / 4), Char(a % 4 * 16 + b / 16), Char(b % 16 * 4 + c / 64), Char(c % 64)] + rest;
      DecodeGroups(s) == match DecodeGroups(rest) case None => None case Some(tail) => Some([a, b, c] + tail)
  {
    PadIsNoValue();
    hide Value;
    var s := [Char(a / 4), Char(a % 4 * 16 + b / 16), Char(b % 16 * 4 + c / 64), Char(c % 64)] + rest;
    assert s[4..] == rest;
    BitsRejoin(a, b, c);
  }

  lemma {:induction false} GroupsRoundTrip(b: seq<Byte>)
    ensures DecodeGroups(Encode(b)) == Some(b)
  {
    hide DecodeGroups;
    if |b| == 0 {
      NoGroups();
    } else if |b| == 1 {
      assert b == [b[0]];
      ShortGroups(b[0], 0);
    } else if |b| == 2 {
      assert b == [b[0], b[1]];
      ShortGroups(b[0], b[1]);
    } else {
      GroupsRoundTrip(b[3..]);
      FullGroup(b[0], b[1], b[2], Encode(b[3..]));
      assert b == [b[0], b[1], b[2]] + b[3..];
    }
  }

  lemma NoGroups()
    ensures DecodeGroups("") == Some([])
  {
  }

  lemma PadIsNoValue()
    ensures Value(PAD).None?
  {
  }

  /** Decoding undoes encoding. */
  lemma DecodeUndoesEncode(b: seq<Byte>)
    ensures Decode(Encode(b)) == Some(b)
  {
    hide *;
    EncodeIsPlain(b);
    NothingSkipped(Encode(b));
    GroupsRoundTrip(b);
    DecodeIs(Encode(b));
  }

  lemma DecodeIs(s: string)
    ensures Decode(s) == DecodeGroups(Skipped(s))
  {
  }

  lemma GroupFirst(a: Byte, b: Byte, c: Byte, rest: seq<Byte>)
    ensures Encode([a, b, c] + rest) == Encode([a, b, c]) + Encode(rest)
  {
    hide Char;
    assert ([a, b, c] + rest)[3..] == rest;
  }

  lemma ShortVectors()
    ensures Encode([]) == "" && Encode([102]) == "Zg==" && Encode([102, 111]) == "Zm8="
    ensures Encode([98]) == "Yg==" && Encode([98, 97]) == "YmE="
  {
  }

  lemma GroupVectors()
    ensures Encode([102, 111, 111]) == "Zm9v" && Encode([98, 97, 114]) == "YmFy"
  {
    hide *;
    GroupIs(102, 111, 111);
    GroupIs(98, 97, 114);
    CharsAre();
  }

  lemma CharsAre()
    ensures Char(25) == 'Z' && Char(38) == 'm' && Char(61) == '9' && Char(47) == 'v'
    ensures Char(24) == 'Y' && Char(5) == 'F' && Char(50) == 'y'
  {
  }

  lemma GroupIs(a: Byte, b: Byte, c: Byte)
    ensures Encode([a, b, c]) == [Char(a / 4), Char(a % 4 * 16 + b / 16), Char(b % 16 * 4 + c / 64), Char(c % 64)]
  {
    hide Char;
    assert [a, b, c][3..] == [];
  }

  /** The test vectors of section 10 of RFC 4648, on the bytes of "foobar". */
  lemma TestVectors()
    ensures Encode([]) == "" && Encode([102]) == "Zg==" && Encode([102, 111]) == "Zm8=" && Encode([102, 111, 111]) == "Zm9v"
    ensures Encode([102, 111, 111, 98]) == "Zm9vYg==" && Encode([102, 111, 111, 98, 97]) == "Zm9vYmE="
    ensures Encode([102, 111, 111, 98, 97, 114]) == "Zm9vYmFy"
  {
    hide Encode;
    ShortVectors();
    GroupVectors();
    GroupFirst(102, 111, 111, [98]);
    GroupFirst(102, 111, 111, [98, 97]);
    GroupFirst(102, 111, 111, [98, 97, 114]);
    assert [102, 111, 111] + [98] == [102, 111, 111, 98] && "Zm9v" + "Yg==" == "Zm9vYg==";
    assert [102, 111, 111] + [98, 97] == [102, 111, 111, 98, 97] && "Zm9v" + "YmE=" == "Zm9vYmE=";
    assert [102, 111, 111] + [98, 97, 114] == [102, 111, 111, 98, 97, 114] && "Zm9v" + "YmFy" == "Zm9vYmFy";
  }
}
