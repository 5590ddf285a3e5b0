/**
 Stored secrets (internal/crypto/cipher.go and keyfile.go): associated data, the enc:v1
 form, an ordered key list, and the key file. The authenticated cipher itself is a pair of
 functions about which each lemma says what it assumes.
 */
module SecretCipher {
  import opened Wrappers
  import opened Base64
  import Strings

  type Bytes = seq<Byte>

  const KEY_SIZE := 32
  const NONCE_SIZE := 12
  const PREFIX := "enc:v1:"
  const KEY_PREFIX := "base64:"

  datatype Failure = Locked | MalformedValue | NoKey | BadKey

  /******* Associated data *******/

  const WORD := 0x1_0000_0000

  // binary.BigEndian.PutUint32 of uint32(n)
  function Be32(n: nat): (b: Bytes)
    ensures |b| == 4
  {
    [n / 0x100_0000 % 256, n / 0x1_0000 % 256, n / 256 % 256, n % 256]
  }

  function Aad(parts: seq<Bytes>): Bytes {
    if parts == [] then [] else Be32(|parts[0]|) + parts[0] + Aad(parts[1..])
  }

  function Size(parts: seq<Bytes>): nat {
    if parts == [] then 0 else 4 + |parts[0]| + Size(parts[1..])
  }

  ghost predicate Short(parts: seq<Bytes>) {
    forall p :: p in parts ==> |p| < WORD
  }

  function FromBe32(b: Bytes): nat
    requires |b| == 4
  {
    var b0: int, b1: int, b2: int, b3: int := b[0], b[1], b[2], b[3];
    ((b0 * 256 + b1) * 256 + b2) * 256 + b3
  }

  lemma Be32Reads(n: nat)
    requires n < WORD
    ensures FromBe32(Be32(n)) == n
  {
    var n1, n2, n3 := n / 256, n / 0x1_0000, n / 0x100_0000;
    assert n3 % 256 == n3;
    assert n2 == n3 * 256 + n2 % 256;
    assert n1 == n2 * 256 + n1 % 256;
    assert n == n1 * 256 + n % 256;
  }

  lemma {:induction false} AadSize(parts: seq<Bytes>)
    ensures |Aad(parts)| == Size(parts)
  {
    if parts != [] {
      AadSize(parts[1..]);
    }
  }

  lemma FirstPart(parts: seq<Bytes>)
    requires parts != [] && |parts[0]| < WORD
    ensures var a := Aad(parts); var n := |parts[0]|;
      && |a| >= 4 + n && FromBe32(a[..4]) == n && a[4..4 + n] == parts[0] && a[4 + n..] == Aad(parts[1..])
  {
    var n := |parts[0]|;
    Be32Reads(n);
    assert Aad(parts)[..4] == Be32(n);
  }

  /** Associated data determines the context it was built from, part by part. */
  lemma {:induction false} AadIsInjective(parts: seq<Bytes>, others: seq<Bytes>)
    requires Short(parts) && Short(others)
    ensures Aad(parts) == Aad(others) <==> parts == others
  {
    hide Be32;
    if Aad(parts) == Aad(others) {
      AadSize(parts);
      AadSize(others);
      if parts != [] && others != [] {
        assert parts[0] in parts && others[0] in others;
        FirstPart(parts);
        FirstPart(others);
        assert Short(parts[1..]) && Short(others[1..]);
        AadIsInjective(parts[1..], others[1..]);
        assert parts == [parts[0]] + parts[1..] && others == [others[0]] + others[1..];
      }
    }
  }

  function Zeros(n: nat): Bytes {
    seq(n, _ => 0)
  }

  function Empties(n: nat): seq<Bytes> {
    seq(n, _ => [])
  }

  lemma {:induction false} AadOfEmpties(n: nat)
    ensures Aad(Empties(n)) == Zeros(4 * n)
  {
    if n > 0 {
      assert Empties(n)[1..] == Empties(n - 1);
      AadOfEmpties(n - 1);
      assert Zeros(4 * n) == Zeros(4) + Zeros(4 * (n - 1));
    } else {
      assert Zeros(0) == [];
    }
  }

  /** The bound is sharp: the length of a part of 2^32 bytes wraps to zero. */
  lemma LongPartsCollide()
    ensures Aad([Zeros(WORD)]) == Aad(Empties(WORD / 4 + 1)) && [Zeros(WORD)] != Empties(WORD / 4 + 1)
  {
    var n := WORD / 4 + 1;
    AadOfEmpties(n);
    assert [Zeros(WORD)][1..] == [] && Aad([]) == [];
    assert Be32(WORD) == Zeros(4);
    assert Aad([Zeros(WORD)]) == Zeros(4) + Zeros(WORD);
    assert Zeros(4) + Zeros(WORD) == Zeros(4 * n);
  }

  /** The buffer AAD fills, in one allocation of the right size. */
  method BuildAad(parts: seq<Bytes>) returns (out: Bytes)
    ensures out == Aad(parts) && |out| == Size(parts)
  {
    AadSize(parts);
    out := [];
    for i := 0 to |parts|
      invariant Aad(parts) == out + Aad(parts[i..])
    {
      assert parts[i..][1..] == parts[i + 1..];
      var length := Be32(|parts[i]|);
      out := out + length;
      out := out + parts[i];
    }
  }

  /******* The stored form *******/

  function Format(nonce: Bytes, sealed: Bytes): string {
    PREFIX + Encode(nonce) + ":" + Encode(sealed)
  }

  predicate Encrypted(stored: string) {
    PREFIX <= stored
  }

  function IndexOf(s: string, c: char): (i: nat)
    ensures i <= |s|
  {
    if s == "" || s[0] == c then 0 else 1 + IndexOf(s[1..], c)
  }

  function Parse(stored: string): Result<(Bytes, Bytes), Failure>
    requires Encrypted(stored)
  {
    var rest := stored[|PREFIX|..];
    var i := IndexOf(rest, ':');
    if i == |rest| then Err(MalformedValue)
    else
      var nonce, sealed := Decode(rest[..i]), Decode(rest[i + 1..]);
      if nonce.None? || |nonce.value| != NONCE_SIZE || sealed.None? then Err(MalformedValue)
      else Ok((nonce.value, sealed.value))
  }

  lemma {:induction false} IndexOfFirst(a: string, c: char, b: string)
    requires c !in a
    ensures IndexOf(a + [c] + b, c) == |a|
  {
    var s := a + [c] + b;
    if a != "" {
      assert s[1..] == a[1..] + [c] + b;
      IndexOfFirst(a[1..], c, b);
    }
  }

  /** The stored form parses back to the nonce and the sealed bytes it was printed from. */
  lemma FormatParses(nonce: Bytes, sealed: Bytes)
    requires |nonce| == NONCE_SIZE
    ensures Encrypted(Format(nonce, sealed)) && Parse(Format(nonce, sealed)) == Ok((nonce, sealed))
  {
    hide Encode;
    hide Decode;
    var a, b := Encode(nonce), Encode(sealed);
    EncodeIsPlain(nonce);
    NoColon(a);
    DecodeUndoesEncode(nonce);
    DecodeUndoesEncode(sealed);
    var rest := Format(nonce, sealed)[|PREFIX|..];
    assert rest == a + [':'] + b;
    IndexOfFirst(a, ':', b);
    assert rest[..|a|] == a && rest[|a| + 1..] == b;
  }

  lemma NoColon(s: string)
    requires forall c :: c in s ==> Encoded(c)
    ensures ':' !in s
  {
    assert !Encoded(':');
  }

  /******* Key lists *******/

  // An authenticated cipher: seal(key, nonce, plaintext, aad), open(key, nonce, sealed, aad).
  datatype Aead = Aead(seal: (Bytes, Bytes, string, Bytes) -> Bytes, open: (Bytes, Bytes, Bytes, Bytes) -> Option<string>)

  function OpenAny(a: Aead, keys: seq<Bytes>, nonce: Bytes, sealed: Bytes, aad: Bytes): Result<string, Failure> {
    if keys == [] then Err(Locked)
    else
      match a.open(keys[0], nonce, sealed, aad)
      case Some(plain) => Ok(plain)
      case None => OpenAny(a, keys[1..], nonce, sealed, aad)
  }

  function Decrypt(a: Aead, keys: seq<Bytes>, aad: Bytes, stored: string): Result<string, Failure> {
    if !Encrypted(stored) then Ok(stored)
    else
      match Parse(stored)
      case Err(e) => Err(e)
      case Ok((nonce, sealed)) => OpenAny(a, keys, nonce, sealed, aad)
  }

  // The first key encrypts.
  function Encrypt(a: Aead, keys: seq<Bytes>, aad: Bytes, nonce: Bytes, plain: string): Result<string, Failure> {
    if keys == [] then Err(NoKey) else Ok(Format(nonce, a.seal(keys[0], nonce, plain, aad)))
  }

  // What is assumed of the cipher about one sealed value: it opens under its own key and
  // context, and under nothing else.
  ghost predicate Authentic(a: Aead, key: Bytes, nonce: Bytes, plain: string, aad: Bytes) {
    var sealed := a.seal(key, nonce, plain, aad);
    && a.open(key, nonce, sealed, aad) == Some(plain)
    && forall k, other :: (k != key || other != aad) ==> a.open(k, nonce, sealed, other) == None
  }

  lemma {:induction false} OpensUnderItsKey(a: Aead, keys: seq<Bytes>, key: Bytes, nonce: Bytes, plain: string, aad: Bytes, other: Bytes)
    requires Authentic(a, key, nonce, plain, aad)
    ensures OpenAny(a, keys, nonce, a.seal(key, nonce, plain, aad), other) == if key in keys && other == aad then Ok(plain) else Err(Locked)
  {
    if keys != [] {
      OpensUnderItsKey(a, keys[1..], key, nonce, plain, aad, other);
      assert key in keys <==> key == keys[0] || key in keys[1..];
    }
  }

  /** A secret encrypted in a context opens to its plaintext under every key list that holds
      the encrypting key, wherever in the list, and stays locked under any other list. */
  lemma EncryptedSecretOpens(a: Aead, keys: seq<Bytes>, current: seq<Bytes>, aad: Bytes, nonce: Bytes, plain: string)
    requires keys != [] && |nonce| == NONCE_SIZE && Authentic(a, keys[0], nonce, plain, aad)
    ensures var stored := Encrypt(a, keys, aad, nonce, plain).value;
      && Encrypted(stored)
      && Decrypt(a, current, aad, stored) == if keys[0] in current then Ok(plain) else Err(Locked)
  {
    hide Format;
    hide Parse;
    FormatParses(nonce, a.seal(keys[0], nonce, plain, aad));
    OpensUnderItsKey(a, current, keys[0], nonce, plain, aad, aad);
  }

  /** A ciphertext moved to another account, record or field stays locked. */
  lemma MovedSecretIsLocked(a: Aead, key: Bytes, current: seq<Bytes>, context: seq<Bytes>, other: seq<Bytes>, nonce: Bytes, plain: string)
    requires |nonce| == NONCE_SIZE && Short(context) && Short(other) && context != other
    requires Authentic(a, key, nonce, plain, Aad(context))
    ensures Decrypt(a, current, Aad(other), Encrypt(a, [key], Aad(context), nonce, plain).value) == Err(Locked)
  {
    hide Format;
    hide Parse;
    hide Aad;
    AadIsInjective(context, other);
    FormatParses(nonce, a.seal(key, nonce, plain, Aad(context)));
    OpensUnderItsKey(a, current, key, nonce, plain, Aad(context), Aad(other));
  }

  /** Decrypt, trying the keys in order. */
  method TryKeys(a: Aead, keys: seq<Bytes>, aad: Bytes, stored: string) returns (r: Result<string, Failure>)
    ensures r == Decrypt(a, keys, aad, stored)
  {
    hide Parse;
    if !Encrypted(stored) {
      return Ok(stored);
    }
    var parsed := Parse(stored);
    if parsed.Err? {
      return Err(parsed.error);
    }
    var (nonce, sealed) := parsed.value;
    for i := 0 to |keys|
      invariant OpenAny(a, keys, nonce, sealed, aad) == OpenAny(a, keys[i..], nonce, sealed, aad)
    {
      var plain := a.open(keys[i], nonce, sealed, aad);
      if plain.Some? {
        return Ok(plain.value);
      }
      assert keys[i..][1..] == keys[i + 1..];
    }
    r := Err(Locked);
  }

  /******* Key files *******/

  function WithoutPrefix(s: string): string {
    if KEY_PREFIX <= s then s[|KEY_PREFIX|..] else s
  }

  function ParseKey(raw: string): Result<Bytes, Failure> {
    var v := Strings.TrimSpace(WithoutPrefix(Strings.TrimSpace(raw)));
    if v == "" then Err(BadKey)
    else
      match Decode(v)
      case None => Err(BadKey)
      case Some(key) => if |key| == KEY_SIZE then Ok(key) else Err(BadKey)
  }

  function EncodeKey(key: Bytes): string {
    KEY_PREFIX + Encode(key)
  }

  // What WriteKeyFile writes.
  function KeyFile(key: Bytes): string {
    EncodeKey(key) + "\n"
  }

  lemma {:induction false} EncodeEndsPlain(b: Bytes)
    requires b != []
    ensures Encode(b) != "" && Encoded(Encode(b)[0]) && Encoded(Encode(b)[|Encode(b)| - 1])
  {
    EncodeIsPlain(b);
    assert Encode(b)[0] in Encode(b) && Encode(b)[|Encode(b)| - 1] in Encode(b);
  }

  lemma PlainIsNoSpace(c: char)
    requires Encoded(c)
    ensures !Strings.IsSpace(c)
  {
  }

  lemma TrimKeeps(s: string)
    requires s != "" && !Strings.IsSpace(s[0]) && !Strings.IsSpace(s[|s| - 1])
    ensures Strings.TrimSpace(s) == s && Strings.TrimSpace(s + "\n") == s
  {
    var line := s + "\n";
    assert Strings.TrimLeft(line) == line;
    assert line[..|line| - 1] == s;
    assert Strings.IsSpace('\n');
    assert Strings.TrimRight(s) == s;
    assert Strings.TrimRight(line) == Strings.TrimRight(line[..|line| - 1]);
  }

  /** A written key file parses back to its key. */
  lemma KeyFileParses(key: Bytes)
    requires |key| == KEY_SIZE
    ensures ParseKey(KeyFile(key)) == Ok(key)
  {
    hide Encode;
    hide Decode;
    var v := Encode(key);
    EncodeEndsPlain(key);
    PlainIsNoSpace(v[0]);
    PlainIsNoSpace(v[|v| - 1]);
    assert !Strings.IsSpace('b');
    TrimKeeps(EncodeKey(key));
    TrimKeeps(v);
    assert WithoutPrefix(EncodeKey(key)) == v;
    DecodeUndoesEncode(key);
  }

  /******* The stored form, part by part *******/

  // A stored text that is a nonce and sealed bytes in the enc:v1 form.
  ghost predicate Holds(stored: string, a: string, b: string, nonce: Bytes, sealed: Bytes) {
    && stored == "enc:v1:" + a + ":" + b && ':' !in a
    && Decode(a) == Some(nonce) && |nonce| == 12 && Decode(b) == Some(sealed)
  }

  lemma {:induction false} SplitAtFirst(s: string, c: char)
    ensures var i := IndexOf(s, c); c !in s[..i] && (i < |s| ==> s == s[..i] + [c] + s[i + 1..])
  {
    if s != "" && s[0] != c {
      SplitAtFirst(s[1..], c);
      var k := IndexOf(s[1..], c);
      assert s[..k + 1] == [s[0]] + s[1..][..k];
      assert k < |s[1..]| ==> s[1..][k + 1..] == s[k + 2..];
    }
  }

  /** A stored text parses exactly when it is of that form, its nonce of twelve bytes and
      everything behind the next colon the sealed bytes. */
  lemma ParsesIff(stored: string, nonce: Bytes, sealed: Bytes)
    requires Encrypted(stored)
    ensures Parse(stored) == Ok((nonce, sealed)) <==> exists a, b :: Holds(stored, a, b, nonce, sealed)
    ensures Parse(stored).Err? ==> Parse(stored) == Err(MalformedValue)
  {
    hide Decode;
    var rest := stored[|PREFIX|..];
    assert stored == PREFIX + rest;
    SplitAtFirst(rest, ':');
    var i := IndexOf(rest, ':');
    if Parse(stored) == Ok((nonce, sealed)) {
      assert stored == "enc:v1:" + rest[..i] + ":" + rest[i + 1..];
      assert Holds(stored, rest[..i], rest[i + 1..], nonce, sealed);
    }
    if exists a, b :: Holds(stored, a, b, nonce, sealed) {
      var a, b :| Holds(stored, a, b, nonce, sealed);
      assert rest == a + [':'] + b;
      IndexOfFirst(a, ':', b);
      assert rest[..|a|] == a && rest[|a| + 1..] == b;
    }
  }

  lemma {:induction false} OpensAt(a: Aead, keys: seq<Bytes>, nonce: Bytes, sealed: Bytes, aad: Bytes, i: nat)
    requires i < |keys| && a.open(keys[i], nonce, sealed, aad).Some?
    requires forall j :: 0 <= j < i ==> a.open(keys[j], nonce, sealed, aad).None?
    ensures OpenAny(a, keys, nonce, sealed, aad) == Ok(a.open(keys[i], nonce, sealed, aad).value)
  {
    if i > 0 {
      OpensAt(a, keys[1..], nonce, sealed, aad, i - 1);
    }
  }

  lemma {:induction false} NoneOpens(a: Aead, keys: seq<Bytes>, nonce: Bytes, sealed: Bytes, aad: Bytes)
    requires forall j :: 0 <= j < |keys| ==> a.open(keys[j], nonce, sealed, aad).None?
    ensures OpenAny(a, keys, nonce, sealed, aad) == Err(Locked)
  {
    if keys != [] {
      NoneOpens(a, keys[1..], nonce, sealed, aad);
    }
  }

  /** What a stored text decrypts to, for any cipher: itself without the prefix, nothing when
      it is malformed, and else what the first key that opens it finds. */
  lemma DecryptsTo(a: Aead, keys: seq<Bytes>, aad: Bytes, stored: string, i: nat)
    ensures !("enc:v1:" <= stored) ==> Decrypt(a, keys, aad, stored) == Ok(stored)
    ensures "enc:v1:" <= stored && Parse(stored).Err? ==> Decrypt(a, keys, aad, stored) == Err(MalformedValue)
    ensures "enc:v1:" <= stored && Parse(stored).Ok? ==>
      var (nonce, sealed) := Parse(stored).value;
      && ((forall j :: 0 <= j < |keys| ==> a.open(keys[j], nonce, sealed, aad).None?) ==> Decrypt(a, keys, aad, stored) == Err(Locked))
      && (i < |keys| && a.open(keys[i], nonce, sealed, aad).Some?
          && (forall j :: 0 <= j < i ==> a.open(keys[j], nonce, sealed, aad).None?) ==>
            Decrypt(a, keys, aad, stored) == Ok(a.open(keys[i], nonce, sealed, aad).value))
  {
    if Encrypted(stored) {
      ParsesIff(stored, [], []);
      hide Parse;
      if Parse(stored).Ok? {
        var (nonce, sealed) := Parse(stored).value;
        if forall j :: 0 <= j < |keys| ==> a.open(keys[j], nonce, sealed, aad).None? {
          NoneOpens(a, keys, nonce, sealed, aad);
        } else if i < |keys| && a.open(keys[i], nonce, sealed, aad).Some?
                  && forall j :: 0 <= j < i ==> a.open(keys[j], nonce, sealed, aad).None? {
          OpensAt(a, keys, nonce, sealed, aad, i);
        }
      }
    }
  }

  /** What is stored: the form above, sealed by the first key; without a key nothing is. */
  lemma EncryptsTo(a: Aead, keys: seq<Bytes>, aad: Bytes, nonce: Bytes, plain: string)
    requires |nonce| == 12
    ensures keys == [] ==> Encrypt(a, keys, aad, nonce, plain) == Err(NoKey)
    ensures keys != [] ==>
      && Encrypt(a, keys, aad, nonce, plain).Ok?
      && var sealed := a.seal(keys[0], nonce, plain, aad);
      Holds(Encrypt(a, keys, aad, nonce, plain).value, Encode(nonce), Encode(sealed), nonce, sealed)
  {
    hide Encode;
    hide Decode;
    if keys != [] {
      var sealed := a.seal(keys[0], nonce, plain, aad);
      EncodeIsPlain(nonce);
      NoColon(Encode(nonce));
      DecodeUndoesEncode(nonce);
      DecodeUndoesEncode(sealed);
    }
  }

  /** A key text is a key exactly when, less the blanks around it and a leading "base64:", it
      is base64 for thirty-two bytes. */
  lemma ParsesKeyIff(raw: string, key: Bytes)
    ensures ParseKey(raw) == Ok(key) <==>
      var text := Strings.TrimSpace(raw);
      |key| == 32 && Decode(Strings.TrimSpace(if "base64:" <= text then text[7..] else text)) == Some(key)
    ensures ParseKey(raw).Err? ==> ParseKey(raw) == Err(BadKey)
  {
    hide Strings.TrimSpace;
    assert Decode("") == Some([]);
  }

  /** Each part stands behind its length in four bytes, the highest first. */
  lemma AadBytes()
    ensures Aad([[7, 8], [], [9]]) == [0, 0, 0, 2, 7, 8, 0, 0, 0, 0, 0, 0, 0, 1, 9]
    ensures Be32(0x01020304) == [1, 2, 3, 4]
  {
    var parts: seq<Bytes> := [[7, 8], [], [9]];
    assert parts[1..] == [[], [9]] && parts[1..][1..] == [[9]] && parts[1..][1..][1..] == [];
    assert Aad([[9]]) == Be32(1) + [9] + Aad([]);
    assert Aad(parts[1..]) == Be32(0) + [] + Aad([[9]]);
  }
}
