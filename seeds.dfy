/** `Mockdown._generate_seed` and `get_fake`: a path's seed is the MD5
    digest of its text, printed in hexadecimal by `hexdigest()`, read back
    by `int(..., 16)` and reduced modulo 10000. */
module Seeds {
  import opened Data

  const SeedRange := 10000

  /** The lower-case hexadecimal digit for `n`, as `hexdigest()` prints it. */
  function HexDigit(n: int): (c: char)
    requires 0 <= n < 16
    ensures IsHexDigit(c)
  {
    if n < 10 then ('0' as int + n) as char else ('a' as int + n - 10) as char
  }

  /** The characters `int(s, 16)` accepts as digits. */
  predicate IsHexDigit(c: char) {
    '0' <= c <= '9' || 'a' <= c <= 'f' || 'A' <= c <= 'F'
  }

  function DigitValue(c: char): (v: nat)
    requires IsHexDigit(c)
    ensures v < 16
  {
    if '0' <= c <= '9' then c as int - '0' as int
    else if 'a' <= c <= 'f' then c as int - 'a' as int + 10
    else c as int - 'A' as int + 10
  }

  /** `bytes.hex()`, which is what `hexdigest()` returns: two digits per byte. */
  function HexDigest(d: seq<byte>): (h: string)
    ensures |h| == 2 * |d|
    ensures forall k :: 0 <= k < |h| ==> IsHexDigit(h[k])
  {
    if d == [] then ""
    else
      var b := d[|d| - 1] as int;
      HexDigest(d[..|d| - 1]) + [HexDigit(b / 16), HexDigit(b % 16)]
  }

  predicate AllHexDigits(s: string) {
    forall k :: 0 <= k < |s| ==> IsHexDigit(s[k])
  }

  /** The value of a string of hexadecimal digits, most significant first. */
  function HexValue(s: string): nat
    requires AllHexDigits(s)
  {
    if s == [] then 0 else HexValue(s[..|s| - 1]) * 16 + DigitValue(s[|s| - 1])
  }

  /** `int(s, 16)` on the strings `hexdigest()` can produce: a non-empty run
      of hexadecimal digits (None stands for the ValueError). */
  function ParseHex(s: string): Option<nat> {
    if s != [] && AllHexDigits(s) then Some(HexValue(s)) else None
  }

  /** The digest read as an unsigned big-endian integer. */
  function BigEndian(d: seq<byte>): nat {
    if d == [] then 0 else BigEndian(d[..|d| - 1]) * 256 + d[|d| - 1] as int
  }

  /** Each printed digit reads back as the number it was printed for. */
  lemma HexDigitValue(n: int)
    requires 0 <= n < 16
    ensures DigitValue(HexDigit(n)) == n
  {
  }

  /** Two hexadecimal digits make up a byte. */
  lemma ByteDigits(x: int, b: int)
    requires 0 <= b < 256
    ensures (x * 16 + b / 16) * 16 + b % 16 == x * 256 + b
  {
    assert b == (b / 16) * 16 + b % 16;
  }

  /** Reading the hexadecimal text back gives the digest's integer value. */
  lemma {:induction false} HexDigestValue(d: seq<byte>)
    ensures HexValue(HexDigest(d)) == BigEndian(d)
  {
    if d != [] {
      var init := d[..|d| - 1];
      var b := d[|d| - 1] as int;
      var h := HexDigest(init);
      var hi, lo := HexDigit(b / 16), HexDigit(b % 16);
      var full := h + [hi, lo];
      assert full[..|full| - 1] == h + [hi];
      assert (h + [hi])[..|h|] == h;
      calc {
        HexValue(full);
        HexValue(h + [hi]) * 16 + DigitValue(lo);
        (HexValue(h) * 16 + DigitValue(hi)) * 16 + DigitValue(lo);
        { HexDigestValue(init); HexDigitValue(b / 16); HexDigitValue(b % 16); }
        (BigEndian(init) * 16 + b / 16) * 16 + b % 16;
        { ByteDigits(BigEndian(init), b); }
        BigEndian(init) * 256 + b;
      }
    }
  }

  /** `int(hexdigest, 16)` always succeeds on a digest and equals its
      big-endian value. */
  lemma HexDigestRoundTrip(d: seq<byte>)
    requires d != []
    ensures ParseHex(HexDigest(d)) == Some(BigEndian(d))
  {
    HexDigestValue(d);
  }

  /** `_generate_seed(text)`: depends on the text alone and lies in [0, 10000). */
  function GenerateSeed(lib: Lib, text: string): (seed: nat)
    ensures seed < SeedRange
    ensures seed == BigEndian(lib.md5(text)) % SeedRange
  {
    var digest := lib.md5(text);
    HexDigestRoundTrip(digest);
    ParseHex(HexDigest(digest)).value % SeedRange
  }

  /** `get_fake(filename)`: a fake-data provider seeded from the file name. */
  function GetFake(lib: Lib, filename: string): (fake: Binding)
    ensures fake.Fake? && fake.seed < SeedRange
    ensures fake.seed == BigEndian(lib.md5(filename)) % SeedRange
  {
    Fake(GenerateSeed(lib, filename))
  }
}
