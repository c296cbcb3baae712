/** The base-62 text of a 32-byte hash: the encoder of the schemas and the decoder
    of the API. */
module Base62 {
  import opened Basics

  const ALPHABET := "0123456789" + "ABCDEFGHIJKLM" + "NOPQRSTUVWXYZ" + "abcdefghijklm" + "nopqrstuvwxyz"
  const BASE := 62
  const HASH_LENGTH := 32

  // -------------------------------------------------------------------- digits

  function DigitChar(d: nat): char
    requires d < BASE
  {
    assert |ALPHABET| == BASE;
    ALPHABET[d]
  }

  /** The value of a character, by its place in the alphabet. */
  function DigitOf(c: char): Option<nat> {
    var n := c as int;
    if 48 <= n <= 57 then Some(n - 48)
    else if 65 <= n <= 90 then Some(n - 55)
    else if 97 <= n <= 122 then Some(n - 61)
    else None
  }

  predicate AllDigits(s: string) {
    forall i :: 0 <= i < |s| ==> DigitOf(s[i]).Some?
  }

  /** The number that a text stands for. */
  function ValueOf(s: string): nat
    requires AllDigits(s)
  {
    if s == "" then 0 else ValueOf(s[..|s| - 1]) * BASE + DigitOf(s[|s| - 1]).value
  }

  // --------------------------------------------------------------------- bytes

  /** A number from its bytes, the most significant first. */
  function FromBytes(b: seq<Byte>): nat {
    if b == [] then 0 else FromBytes(b[..|b| - 1]) * 256 + b[|b| - 1]
  }

  /** The last `k` bytes of a number. */
  function ToBytes(n: nat, k: nat): (b: seq<Byte>)
    ensures |b| == k
  {
    if k == 0 then [] else ToBytes(n / 256, k - 1) + [n % 256]
  }

  /** As few bytes as possible, but at least one. */
  function Shortest(n: nat): (b: seq<Byte>)
    ensures |b| > 0
  {
    if n < 256 then [n] else Shortest(n / 256) + [n % 256]
  }

  function Power(k: nat): (p: nat)
    ensures p > 0
  {
    if k == 0 then 1 else 256 * Power(k - 1)
  }

  lemma DivSmaller(n: nat, p: nat)
    requires p > 0
    ensures n / 256 < p <==> n < 256 * p
  {
    assert n == 256 * (n / 256) + n % 256;
  }

  /** The shortest form fits `k` bytes exactly when the number is below 256^k, and
      padding it gives the `k` bytes. */
  lemma {:induction false} ShortestFits(n: nat, k: nat)
    requires k > 0
    ensures |Shortest(n)| <= k <==> n < Power(k)
    ensures n < Power(k) ==> seq(k - |Shortest(n)|, _ => 0) + Shortest(n) == ToBytes(n, k)
  {
    DivSmaller(n, Power(k - 1));
    if n < 256 {
      PowerGrows(k);
      ZeroBytes(k - 1);
      assert n / 256 == 0;
    } else if k == 1 {
      assert Power(1) == 256 * Power(0);
    } else {
      ShortestFits(n / 256, k - 1);
      if n < Power(k) {
        var zeros := seq(k - |Shortest(n)|, _ => 0);
        assert zeros + (Shortest(n / 256) + [n % 256]) == zeros + Shortest(n / 256) + [n % 256];
      }
    }
  }

  lemma {:induction false} PowerGrows(k: nat)
    requires k > 0
    ensures Power(k) >= 256
  {
    if k > 1 {
      PowerGrows(k - 1);
    }
  }

  lemma {:induction false} ZeroBytes(k: nat)
    ensures ToBytes(0, k) == seq(k, _ => 0)
  {
    if k > 0 {
      ZeroBytes(k - 1);
      assert seq(k, _ => 0) == seq(k - 1, _ => 0) + [0];
    }
  }

  lemma {:induction false} BytesFit(b: seq<Byte>)
    ensures FromBytes(b) < Power(|b|)
  {
    if b != [] {
      BytesFit(b[..|b| - 1]);
    }
  }

  /** Bytes to a number and back. */
  lemma {:induction false} BytesRoundTrip(b: seq<Byte>)
    ensures ToBytes(FromBytes(b), |b|) == b
  {
    if b != [] {
      var rest, last := b[..|b| - 1], b[|b| - 1];
      BytesRoundTrip(rest);
      var n := FromBytes(b);
      assert n / 256 == FromBytes(rest) && n % 256 == last;
      assert b == rest + [last];
    }
  }

  /** A number to its bytes and back. */
  lemma {:induction false} NumberRoundTrip(n: nat, k: nat)
    requires n < Power(k)
    ensures FromBytes(ToBytes(n, k)) == n
  {
    if k > 0 {
      DivSmaller(n, Power(k - 1));
      NumberRoundTrip(n / 256, k - 1);
      var b := ToBytes(n, k);
      assert b[..k - 1] == ToBytes(n / 256, k - 1);
      assert n == 256 * (n / 256) + n % 256;
    }
  }

  // ------------------------------------------------------------------ encoding

  /** The digits of a positive number, none for zero. */
  function Digits(n: nat): string {
    if n == 0 then "" else Digits(n / BASE) + [DigitChar(n % BASE)]
  }

  function Reversed(s: string): string {
    if s == "" then "" else [s[|s| - 1]] + Reversed(s[..|s| - 1])
  }

  lemma DigitCharOf(d: nat)
    requires d < BASE
    ensures DigitOf(DigitChar(d)) == Some(d)
  {
    if d < 10 {
      assert d == 0 || d == 1 || d == 2 || d == 3 || d == 4 || d == 5 || d == 6 || d == 7 || d == 8 || d == 9;
    } else if d < 23 {
      assert d == 10 || d == 11 || d == 12 || d == 13 || d == 14 || d == 15 || d == 16 || d == 17 || d == 18 ||
             d == 19 || d == 20 || d == 21 || d == 22;
    } else if d < 36 {
      assert d == 23 || d == 24 || d == 25 || d == 26 || d == 27 || d == 28 || d == 29 || d == 30 || d == 31 ||
             d == 32 || d == 33 || d == 34 || d == 35;
    } else if d < 49 {
      assert d == 36 || d == 37 || d == 38 || d == 39 || d == 40 || d == 41 || d == 42 || d == 43 || d == 44 ||
             d == 45 || d == 46 || d == 47 || d == 48;
    } else {
      assert d == 49 || d == 50 || d == 51 || d == 52 || d == 53 || d == 54 || d == 55 || d == 56 || d == 57 ||
             d == 58 || d == 59 || d == 60 || d == 61;
    }
  }

  /** A character has a value exactly when it is in the alphabet, and then the
      value is its place there. */
  lemma DigitIsPlace(c: char)
    ensures DigitOf(c).Some? <==> c in ALPHABET
    ensures DigitOf(c).Some? ==> DigitOf(c).value < BASE && DigitChar(DigitOf(c).value) == c
  {
    if c in ALPHABET {
      var i :| 0 <= i < |ALPHABET| && ALPHABET[i] == c;
      DigitCharOf(i);
    }
    if DigitOf(c).Some? {
      DigitCharOf(DigitOf(c).value);
      assert ALPHABET[DigitOf(c).value] == c;
    }
  }

  lemma {:induction false} DigitsStandFor(n: nat)
    ensures AllDigits(Digits(n)) && ValueOf(Digits(n)) == n
  {
    if n > 0 {
      DigitsStandFor(n / BASE);
      DigitCharOf(n % BASE);
      var s := Digits(n);
      assert s[..|s| - 1] == Digits(n / BASE);
      assert n == BASE * (n / BASE) + n % BASE;
    }
  }

  lemma ReversedSnoc(s: string, c: char)
    ensures Reversed(s + [c]) == [c] + Reversed(s)
  {
    assert (s + [c])[..|s|] == s;
  }

  /** The encoder. Its text has only digits and stands for the hash; it has no
      leading zero but for the zero hash. */
  method Encode(hash: seq<Byte>) returns (s: string)
    requires |hash| == HASH_LENGTH
    ensures s != "" && AllDigits(s) && ValueOf(s) == FromBytes(hash)
    ensures FromBytes(hash) > 0 ==> s == Digits(FromBytes(hash))
  {
    var n: nat := FromBytes(hash);
    if n == 0 {
      DigitCharOf(0);
      assert "0"[..0] == "";
      return "0";
    }
    var out := "";
    while n > 0
      invariant Digits(n) + Reversed(out) == Digits(FromBytes(hash))
    {
      ReversedSnoc(out, DigitChar(n % BASE));
      assert Digits(n) + Reversed(out) == Digits(n / BASE) + ([DigitChar(n % BASE)] + Reversed(out));
      out := out + [DigitChar(n % BASE)];
      n := n / BASE;
    }
    s := Reversed(out);
    DigitsStandFor(FromBytes(hash));
    assert s == Digits(FromBytes(hash));
  }

  // ------------------------------------------------------------------ decoding

  /** The decoder. It succeeds exactly on non-empty texts of digits whose number
      fits 32 bytes, and returns that number. */
  method Decode(s: string) returns (r: Option<seq<Byte>>)
    ensures r.Some? <==> s != "" && AllDigits(s) && ValueOf(s) < Power(HASH_LENGTH)
    ensures r.Some? ==> r.value == ToBytes(ValueOf(s), HASH_LENGTH)
  {
    hide Power, ToBytes, Shortest;
    if s == "" {
      return None;
    }
    if s == "0" {
      assert AllDigits(s) && s[..0] == "" && ValueOf(s) == 0;
      ZeroBytes(HASH_LENGTH);
      PowerGrows(HASH_LENGTH);
      return Some(seq(HASH_LENGTH, _ => 0));
    }
    var n := 0;
    for i := 0 to |s|
      invariant AllDigits(s[..i]) && n == ValueOf(s[..i])
    {
      var d := DigitOf(s[i]);
      if d.None? {
        return None;
      }
      assert s[..i + 1][..i] == s[..i];
      assert AllDigits(s[..i + 1]);
      n := n * BASE + d.value;
    }
    assert s[..|s|] == s;
    var bytes := Shortest(n);
    ShortestFits(n, HASH_LENGTH);
    if |bytes| > HASH_LENGTH {
      return None;
    }
    r := Some(seq(HASH_LENGTH - |bytes|, _ => 0) + bytes);
  }

  /** Decoding an encoded hash gives the hash back. */
  method RoundTrip(hash: seq<Byte>) returns (r: Option<seq<Byte>>)
    requires |hash| == HASH_LENGTH
    ensures r == Some(hash)
  {
    var s := Encode(hash);
    BytesFit(hash);
    r := Decode(s);
    BytesRoundTrip(hash);
  }
}
