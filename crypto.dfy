/**
 * Crypto service: XOR "encryption" with a repeated key wrapped in Base64
 * (section 4 of RFC 4648), salted hashing with the digest as a parameter,
 * the order-independent portfolio checksum, and display masking.
 */
module Crypto {
  import opened Base
  import opened Text
  import opened Sorting

  /** A Python `bytes` element. */
  type byte = x: int | 0 <= x < 256

  // ---------------------------------------------------------------------------
  // Bitwise XOR on non-negative integers (Python's `^`)
  // ---------------------------------------------------------------------------

  function Xor(a: nat, b: nat): nat
    decreases a + b
  {
    if a == 0 && b == 0 then 0
    else 2 * Xor(a / 2, b / 2) + (if a % 2 == b % 2 then 0 else 1)
  }

  /** XOR-ing twice with the same value gives the original back. */
  lemma {:induction false} XorInvolution(a: nat, k: nat)
    ensures Xor(Xor(a, k), k) == a
    decreases a + k
  {
    if !(a == 0 && k == 0) {
      XorInvolution(a / 2, k / 2);
      assert Xor(a, k) / 2 == Xor(a / 2, k / 2);
    }
  }

  function Pow2(n: nat): nat {
    if n == 0 then 1 else 2 * Pow2(n - 1)
  }

  /** XOR never sets a bit above the operands' width. */
  lemma {:induction false} XorBound(a: nat, b: nat, n: nat)
    requires a < Pow2(n) && b < Pow2(n)
    ensures Xor(a, b) < Pow2(n)
    decreases n
  {
    if n > 0 && !(a == 0 && b == 0) {
      XorBound(a / 2, b / 2, n - 1);
    }
  }

  function XorByte(a: byte, b: byte): byte {
    assert Pow2(8) == 256;
    XorBound(a, b, 8);
    Xor(a, b)
  }

  /** `bytes(a ^ b for a, b in zip(xs, ks))` */
  function XorBytes(xs: seq<byte>, ks: seq<byte>): (r: seq<byte>)
    ensures |r| == if |xs| <= |ks| then |xs| else |ks|
  {
    var n := if |xs| <= |ks| then |xs| else |ks|;
    seq(n, i requires 0 <= i < n => XorByte(xs[i], ks[i]))
  }

  /** XOR with the same keystream is an involution on data of the keystream's length. */
  lemma XorBytesInvolution(xs: seq<byte>, ks: seq<byte>)
    requires |xs| == |ks|
    ensures XorBytes(XorBytes(xs, ks), ks) == xs
  {
    var once := XorBytes(xs, ks);
    forall i | 0 <= i < |xs| ensures XorBytes(once, ks)[i] == xs[i] {
      XorInvolution(xs[i], ks[i]);
    }
  }

  // ---------------------------------------------------------------------------
  // Keystream
  // ---------------------------------------------------------------------------

  /** `key * m` */
  function Repeat(key: seq<byte>, m: nat): (r: seq<byte>)
    ensures |r| == m * |key|
  {
    if m == 0 then [] else Repeat(key, m - 1) + key
  }

  lemma MulAtLeast(e: int, k: int)
    requires e >= 1 && k >= 0
    ensures e * k >= k
  {
  }

  lemma ModShift(q: nat, k: nat, j: nat)
    requires j < k
    ensures (q * k + j) % k == j
  {
    var i := q * k + j;
    var d, r := i / k, i % k;
    assert i == d * k + r;
    if d > q {
      MulAtLeast(d - q, k);
    } else if d < q {
      MulAtLeast(q - d, k);
    }
  }

  /** Position `i` of `key * m` is `key[i % len(key)]`. */
  lemma {:induction false} RepeatIndex(key: seq<byte>, m: nat, i: nat)
    requires key != [] && i < m * |key|
    ensures Repeat(key, m)[i] == key[i % |key|]
    decreases m
  {
    var prev := (m - 1) * |key|;
    assert m * |key| == prev + |key|;
    if i < prev {
      RepeatIndex(key, m - 1, i);
    } else {
      ModShift(m - 1, |key|, i - prev);
    }
  }

  lemma CoversLength(n: nat, k: nat)
    requires k > 0
    ensures n <= (n / k + 1) * k
  {
    assert n == (n / k) * k + n % k;
    assert (n / k + 1) * k == (n / k) * k + k;
  }

  /** `(key * (n // len(key) + 1))[:n]` */
  function KeyStream(key: seq<byte>, n: nat): (r: seq<byte>)
    requires key != []
    ensures |r| == n
  {
    CoversLength(n, |key|);
    Repeat(key, n / |key| + 1)[..n]
  }

  /** The keystream is the key repeated and cut to exactly `n` bytes. */
  lemma KeyStreamIndex(key: seq<byte>, n: nat)
    requires key != []
    ensures forall i :: 0 <= i < n ==> KeyStream(key, n)[i] == key[i % |key|]
  {
    CoversLength(n, |key|);
    forall i | 0 <= i < n ensures KeyStream(key, n)[i] == key[i % |key|] {
      RepeatIndex(key, n / |key| + 1, i);
    }
  }

  // ---------------------------------------------------------------------------
  // Base64, section 4 of RFC 4648
  // ---------------------------------------------------------------------------

  /** The character for a 6-bit value. */
  function Sym(n: int): (c: char)
    requires 0 <= n < 64
  {
    if n < 26 then (65 + n) as char
    else if n < 52 then (97 + n - 26) as char
    else if n < 62 then (48 + n - 52) as char
    else if n == 62 then '+' else '/'
  }

  /** The 6-bit value of an alphabet character; `None` for any other character. */
  function Val(c: char): (r: Option<int>)
    ensures r.Some? ==> 0 <= r.value < 64
  {
    if 'A' <= c <= 'Z' then Some(c as int - 65)
    else if 'a' <= c <= 'z' then Some(c as int - 97 + 26)
    else if '0' <= c <= '9' then Some(c as int - 48 + 52)
    else if c == '+' then Some(62)
    else if c == '/' then Some(63)
    else None
  }

  /** The alphabet is a bijection between 6-bit values and its 64 characters, none of them '='. */
  lemma AlphabetBijection(n: int, c: char)
    requires 0 <= n < 64
    ensures Val(Sym(n)) == Some(n) && Sym(n) != '='
    ensures Val(c).Some? ==> Sym(Val(c).value) == c
  {
  }

  /** One input group of 1 to 3 bytes as 4 output characters, padded with '='. */
  function EncodeGroup(g: seq<byte>): (r: string)
    requires 1 <= |g| <= 3
    ensures |r| == 4
  {
    var x := g[0];
    var y := if |g| > 1 then g[1] else 0;
    var z := if |g| > 2 then g[2] else 0;
    var c0, c1, c2, c3 := x / 4, (x % 4) * 16 + y / 16, (y % 16) * 4 + z / 64, z % 64;
    if |g| == 3 then [Sym(c0), Sym(c1), Sym(c2), Sym(c3)]
    else if |g| == 2 then [Sym(c0), Sym(c1), Sym(c2), '=']
    else [Sym(c0), Sym(c1), '=', '=']
  }

  /** `base64.b64encode` */
  function Encode(b: seq<byte>): (r: string)
    ensures |r| == 4 * ((|b| + 2) / 3)
    decreases |b|
  {
    if b == [] then []
    else if |b| <= 3 then EncodeGroup(b)
    else EncodeGroup(b[..3]) + Encode(b[3..])
  }

  /** Four characters back to 1 to 3 bytes; `None` when they are not a valid group. */
  function DecodeGroup(q: string): (r: Option<seq<byte>>)
    requires |q| == 4
    ensures r.Some? ==> 1 <= |r.value| <= 3
  {
    var v0, v1, v2, v3 := Val(q[0]), Val(q[1]), Val(q[2]), Val(q[3]);
    if v0.None? || v1.None? then None
    else
      var a, b := v0.value, v1.value;
      if q[2] == '=' then
        if q[3] == '=' then Some([a * 4 + b / 16]) else None
      else if v2.None? then None
      else
        var c := v2.value;
        if q[3] == '=' then Some([a * 4 + b / 16, (b % 16) * 16 + c / 4])
        else if v3.None? then None
        else Some([a * 4 + b / 16, (b % 16) * 16 + c / 4, (c % 4) * 64 + v3.value])
  }

  /**
   * `base64.b64decode` on text made of complete 4-character groups of
   * alphabet characters with '=' padding only at the end; `None` for any
   * other text, including text the non-strict decoder would accept after
   * discarding characters outside the alphabet.
   */
  function Decode(s: string): Option<seq<byte>>
    decreases |s|
  {
    if s == [] then Some([])
    else if |s| < 4 then None
    else
      var g := DecodeGroup(s[..4]);
      if g.None? || (|g.value| < 3 && |s| > 4) then None
      else
        var rest := Decode(s[4..]);
        if rest.None? then None else Some(g.value + rest.value)
  }

  /** The 6-bit split of three bytes recombines to the same bytes. */
  lemma SplitRecombine(x: byte, y: byte, z: byte)
    ensures var c0, c1, c2, c3 := x / 4, (x % 4) * 16 + y / 16, (y % 16) * 4 + z / 64, z % 64;
      0 <= c0 < 64 && 0 <= c1 < 64 && 0 <= c2 < 64 && 0 <= c3 < 64 &&
      c0 * 4 + c1 / 16 == x && (c1 % 16) * 16 + c2 / 4 == y && (c2 % 4) * 64 + c3 == z
  {
  }

  /** Every group decodes to the bytes it encodes. */
  lemma DecodeEncodeGroup(g: seq<byte>)
    requires 1 <= |g| <= 3
    ensures DecodeGroup(EncodeGroup(g)) == Some(g)
  {
    var x := g[0];
    var y := if |g| > 1 then g[1] else 0;
    var z := if |g| > 2 then g[2] else 0;
    SplitRecombine(x, y, z);
    var c0, c1, c2, c3 := x / 4, (x % 4) * 16 + y / 16, (y % 16) * 4 + z / 64, z % 64;
    AlphabetBijection(c0, 'A');
    AlphabetBijection(c1, 'A');
    AlphabetBijection(c2, 'A');
    AlphabetBijection(c3, 'A');
    if |g| == 3 {
      DecodeFull(g, c0, c1, c2, c3);
    } else if |g| == 2 {
      DecodeOnePad(g, c0, c1, c2);
    } else {
      DecodeTwoPads(g, c0, c1);
    }
  }

  lemma DecodeFull(g: seq<byte>, c0: int, c1: int, c2: int, c3: int)
    requires |g| == 3
    requires 0 <= c0 < 64 && 0 <= c1 < 64 && 0 <= c2 < 64 && 0 <= c3 < 64
    requires Val(Sym(c0)) == Some(c0) && Val(Sym(c1)) == Some(c1) && Val(Sym(c2)) == Some(c2) && Val(Sym(c3)) == Some(c3)
    requires Sym(c2) != '=' && Sym(c3) != '='
    requires c0 * 4 + c1 / 16 == g[0] && (c1 % 16) * 16 + c2 / 4 == g[1] && (c2 % 4) * 64 + c3 == g[2]
    ensures DecodeGroup([Sym(c0), Sym(c1), Sym(c2), Sym(c3)]) == Some(g)
  {
    var q := [Sym(c0), Sym(c1), Sym(c2), Sym(c3)];
    assert q[0] == Sym(c0) && q[1] == Sym(c1) && q[2] == Sym(c2) && q[3] == Sym(c3);
    assert g == [g[0], g[1], g[2]];
  }

  lemma DecodeOnePad(g: seq<byte>, c0: int, c1: int, c2: int)
    requires |g| == 2
    requires 0 <= c0 < 64 && 0 <= c1 < 64 && 0 <= c2 < 64
    requires Val(Sym(c0)) == Some(c0) && Val(Sym(c1)) == Some(c1) && Val(Sym(c2)) == Some(c2) && Sym(c2) != '='
    requires c0 * 4 + c1 / 16 == g[0] && (c1 % 16) * 16 + c2 / 4 == g[1]
    ensures DecodeGroup([Sym(c0), Sym(c1), Sym(c2), '=']) == Some(g)
  {
    var q := [Sym(c0), Sym(c1), Sym(c2), '='];
    assert q[0] == Sym(c0) && q[1] == Sym(c1) && q[2] == Sym(c2) && q[3] == '=';
    assert g == [g[0], g[1]];
  }

  lemma DecodeTwoPads(g: seq<byte>, c0: int, c1: int)
    requires |g| == 1
    requires 0 <= c0 < 64 && 0 <= c1 < 64
    requires Val(Sym(c0)) == Some(c0) && Val(Sym(c1)) == Some(c1)
    requires c0 * 4 + c1 / 16 == g[0]
    ensures DecodeGroup([Sym(c0), Sym(c1), '=', '=']) == Some(g)
  {
    var q := [Sym(c0), Sym(c1), '=', '='];
    assert q[0] == Sym(c0) && q[1] == Sym(c1) && q[2] == '=' && q[3] == '=';
    assert g == [g[0]];
  }

  /** Base64 decoding undoes encoding on every byte string. */
  lemma {:induction false} DecodeEncode(b: seq<byte>)
    ensures Decode(Encode(b)) == Some(b)
    decreases |b|
  {
    if b != [] {
      if |b| <= 3 {
        DecodeEncodeGroup(b);
        assert Encode(b)[..4] == EncodeGroup(b);
        assert Encode(b)[4..] == [];
        assert b + [] == b;
      } else {
        var s := Encode(b);
        DecodeEncodeGroup(b[..3]);
        DecodeEncode(b[3..]);
        assert s[..4] == EncodeGroup(b[..3]);
        assert s[4..] == Encode(b[3..]);
        assert b[..3] + b[3..] == b;
      }
    }
  }

  /** The encoding uses only the alphabet and '='. */
  lemma {:induction false} EncodeAlphabet(b: seq<byte>)
    ensures forall i :: 0 <= i < |Encode(b)| ==> Val(Encode(b)[i]).Some? || Encode(b)[i] == '='
    decreases |b|
  {
    if |b| > 3 {
      EncodeAlphabet(b[3..]);
      var s := Encode(b);
      assert s == EncodeGroup(b[..3]) + Encode(b[3..]);
      forall i | 4 <= i < |s| ensures s[i] == Encode(b[3..])[i - 4] { }
    }
  }

  // ---------------------------------------------------------------------------
  // simple_encrypt / simple_decrypt
  // ---------------------------------------------------------------------------

  /**
   * `simple_encrypt` on the UTF-8 bytes of the text; `None` for an empty key,
   * where the keystream length divides by zero.
   */
  function Encrypt(data: seq<byte>, key: seq<byte>): Option<string> {
    if key == [] then None
    else Some(Encode(XorBytes(data, KeyStream(key, |data|))))
  }

  /** `simple_decrypt`, returning the bytes before UTF-8 decoding; `None` where `Decode` gives none or the key is empty. */
  function Decrypt(text: string, key: seq<byte>): Option<seq<byte>> {
    var raw := Decode(text);
    if raw.None? || key == [] then None
    else Some(XorBytes(raw.value, KeyStream(key, |raw.value|)))
  }

  /**
   * Encryption succeeds exactly for a non-empty key, its ciphertext has the
   * plaintext's length before Base64, and decryption with the same key gives
   * the plaintext back.
   */
  lemma DecryptEncrypt(data: seq<byte>, key: seq<byte>)
    ensures Encrypt(data, key).Some? <==> key != []
    ensures key != [] ==> Decode(Encrypt(data, key).value) == Some(XorBytes(data, KeyStream(key, |data|)))
    ensures key != [] ==> |Decode(Encrypt(data, key).value).value| == |data|
    ensures key != [] ==> Decrypt(Encrypt(data, key).value, key) == Some(data)
  {
    if key != [] {
      var ks := KeyStream(key, |data|);
      var c := XorBytes(data, ks);
      DecodeEncode(c);
      XorBytesInvolution(data, ks);
    }
  }

  // ---------------------------------------------------------------------------
  // Hashing, with SHA-256 hex digest as the parameter `sha`
  // ---------------------------------------------------------------------------

  datatype Salted = Salted(hash: string, salt: string)

  /** `hash_with_salt`: a missing salt is replaced by the token random token. */
  function HashWithSalt(data: string, salt: Option<string>, token: string, sha: string -> string): (r: Salted)
    ensures r.salt == salt.GetOr(token)
    ensures r.hash == sha(r.salt + ":" + data)
  {
    var s := if salt.Some? then salt.value else token;
    Salted(sha(s + ":" + data), s)
  }

  /** `verify_hash` (constant-time comparison is plain equality here). */
  function VerifyHash(data: string, expected: string, salt: string, sha: string -> string): bool {
    HashWithSalt(data, Some(salt), "", sha).hash == expected
  }

  /** A hash verifies against the salt it was made with, and only a hash of "salt:data" verifies. */
  lemma VerifyHashSound(data: string, salt: Option<string>, token: string, expected: string, sha: string -> string)
    ensures var h := HashWithSalt(data, salt, token, sha); VerifyHash(data, h.hash, h.salt, sha)
    ensures salt.Some? ==> (VerifyHash(data, expected, salt.value, sha) <==> expected == sha(salt.value + ":" + data))
  {
  }

  /** A portfolio entry: its `symbol` key (absent in some dicts) and the rest of its content. */
  datatype Entry = Entry(symbol: Option<string>, rest: string)

  /** `x.get('symbol', '')` */
  function SymbolKey(e: Entry): string {
    e.symbol.GetOr("")
  }

  predicate BySymbol(a: Entry, b: Entry) {
    StrLe(SymbolKey(a), SymbolKey(b))
  }

  /**
   * `hash_portfolio_data`: a stable sort by symbol, then the JSON dump and the
   * digest, both parameters.
   */
  function HashPortfolio(holdings: seq<Entry>, dump: seq<Entry> -> string, sha: string -> string): string {
    sha(dump(SortBy(holdings, BySymbol)))
  }

  /** Entries with the same symbol are the same entry. */
  predicate DistinctSymbols(holdings: seq<Entry>) {
    forall i, j :: 0 <= i < |holdings| && 0 <= j < |holdings| && SymbolKey(holdings[i]) == SymbolKey(holdings[j]) ==>
      holdings[i] == holdings[j]
  }

  lemma BySymbolPreorder()
    ensures TotalPreorder(BySymbol)
  {
    StrLeTotalOrder();
  }

  /** The checksum does not depend on the order of holdings with distinct symbols. */
  lemma HashPortfolioOrderFree(h1: seq<Entry>, h2: seq<Entry>, dump: seq<Entry> -> string, sha: string -> string)
    requires multiset(h1) == multiset(h2)
    requires DistinctSymbols(h1)
    ensures HashPortfolio(h1, dump, sha) == HashPortfolio(h2, dump, sha)
  {
    BySymbolPreorder();
    var s1, s2 := SortBy(h1, BySymbol), SortBy(h2, BySymbol);
    SortBySorted(h1, BySymbol);
    SortBySorted(h2, BySymbol);
    assert Antisymmetric(s1, BySymbol) by {
      StrLeTotalOrder();
      forall x, y | x in s1 && y in s1 && BySymbol(x, y) && BySymbol(y, x) ensures x == y {
        assert x in multiset(h1) && y in multiset(h1);
        var i :| 0 <= i < |h1| && h1[i] == x;
        var j :| 0 <= j < |h1| && h1[j] == y;
      }
    }
    SortedUnique(s1, s2, BySymbol);
  }

  // ---------------------------------------------------------------------------
  // Masking
  // ---------------------------------------------------------------------------

  function Stars(n: int): (r: string)
    ensures |r| == if n > 0 then n else 0
    ensures forall i :: 0 <= i < |r| ==> r[i] == '*'
  {
    if n <= 0 then [] else Stars(n - 1) + ['*']
  }

  /** `mask_sensitive_value(value, show_chars)` on `str(value)`, as written. */
  function Mask(s: string, showChars: int): string {
    if |s| <= showChars then Stars(|s|)
    else Stars(|s| - showChars) + PyLast(s, showChars)
  }

  /**
   * For 0 < show_chars < len, the mask keeps the length, stars the front and
   * shows exactly the last show_chars characters; a value no longer than
   * show_chars is starred out entirely.
   */
  lemma MaskShowsSuffix(s: string, showChars: int)
    ensures |s| <= showChars ==> Mask(s, showChars) == Stars(|s|)
    ensures 0 < showChars < |s| ==>
      |Mask(s, showChars)| == |s| &&
      Mask(s, showChars)[|s| - showChars..] == s[|s| - showChars..] &&
      forall i :: 0 <= i < |s| - showChars ==> Mask(s, showChars)[i] == '*'
  {
    if 0 < showChars < |s| {
      var st := Stars(|s| - showChars);
      assert Mask(s, showChars) == st + s[|s| - showChars..];
      assert (st + s[|s| - showChars..])[|st|..] == s[|s| - showChars..];
    }
  }

  /** With show_chars = 0 the slice `[-0:]` is the whole value: it is shown in full after the stars. */
  lemma MaskZeroRevealsAll(s: string)
    ensures Mask(s, 0) == Stars(|s|) + s
    ensures s != [] ==> |Mask(s, 0)| == 2 * |s| && Mask(s, 0)[|s|..] == s
  {
  }

  /** The evidently intended mask: never shows more than `show_chars` characters, none when it is 0 or less. */
  function MaskIntended(s: string, showChars: int): (r: string)
    ensures |r| == |s|
    ensures showChars <= 0 ==> r == Stars(|s|)
    ensures forall i :: 0 <= i < |s| - showChars && i < |s| ==> r[i] == '*'
    ensures 0 < showChars < |s| ==> r[|s| - showChars..] == s[|s| - showChars..]
  {
    if |s| <= showChars then Stars(|s|)
    else if showChars <= 0 then Stars(|s|)
    else
      var st := Stars(|s| - showChars);
      assert (st + s[|s| - showChars..])[|st|..] == s[|s| - showChars..];
      st + s[|s| - showChars..]
  }

  /** The intended mask agrees with the code whenever show_chars is positive. */
  lemma MaskIntendedAgrees(s: string, showChars: int)
    requires showChars > 0
    ensures MaskIntended(s, showChars) == Mask(s, showChars)
  {
  }
}
