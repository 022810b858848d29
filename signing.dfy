/** Message signing: the HMAC algorithms the codec can be configured with,
    how a signature-scheme name from the connection file selects one, how the
    key becomes bytes, and the lowercase hexadecimal form a digest is sent
    in. The HMAC computation itself is a parameter. */
module Signing {
  import opened Wire

  /** The HMAC algorithms of the codec library, in declaration order. */
  datatype HmacAlgorithm = HmacMD5 | HmacSHA1 | HmacSHA256 | HmacSHA384 | HmacSHA512

  const AllAlgorithms: seq<HmacAlgorithm> := [HmacMD5, HmacSHA1, HmacSHA256, HmacSHA384, HmacSHA512]

  /** The algorithm's standard name (its `toString`). */
  function Name(a: HmacAlgorithm): string {
    match a
    case HmacMD5 => "HmacMD5"
    case HmacSHA1 => "HmacSHA1"
    case HmacSHA256 => "HmacSHA256"
    case HmacSHA384 => "HmacSHA384"
    case HmacSHA512 => "HmacSHA512"
  }

  /** The digest size of the algorithm, in bytes. */
  function DigestLength(a: HmacAlgorithm): nat {
    match a
    case HmacMD5 => 16
    case HmacSHA1 => 20
    case HmacSHA256 => 32
    case HmacSHA384 => 48
    case HmacSHA512 => 64
  }

  /** An HMAC: key, algorithm and the bytes fed to it give the digest. */
  type Mac = (seq<Byte>, HmacAlgorithm, seq<Byte>) -> seq<Byte>

  /** Every digest has the algorithm's size. */
  ghost predicate WellFormedMac(mac: Mac) {
    forall k, a, d :: |mac(k, a, d)| == DigestLength(a)
  }

  // ---- Lowercase hexadecimal, as ASCII bytes ----

  /** The ASCII code of the lowercase hex digit for `n`. */
  function HexDigit(n: int): Byte
    requires 0 <= n < 16
  {
    if n < 10 then (48 + n) as Byte else (87 + n) as Byte
  }

  /** ASCII `0`..`9` and `a`..`f`. */
  predicate IsLowerHexDigit(b: Byte) {
    48 <= b <= 57 || 97 <= b <= 102
  }

  /** The value of a lowercase hex digit. */
  function HexValue(b: Byte): int
    requires IsLowerHexDigit(b)
  {
    if b <= 57 then b as int - 48 else b as int - 87
  }

  /** `encodeHexString(d).getBytes(UTF-8)`: two lowercase digits per byte,
      high nibble first. */
  function Hex(d: seq<Byte>): seq<Byte> {
    if d == [] then [] else [HexDigit(d[0] as int / 16), HexDigit(d[0] as int % 16)] + Hex(d[1..])
  }

  /** The bytes spelled by an even-length run of lowercase hex digits. */
  function Unhex(h: seq<Byte>): seq<Byte>
    requires |h| % 2 == 0
    requires forall i :: 0 <= i < |h| ==> IsLowerHexDigit(h[i])
  {
    if h == [] then [] else [(HexValue(h[0]) * 16 + HexValue(h[1])) as Byte] + Unhex(h[2..])
  }

  /** Hex encoding doubles the length, uses lowercase digits only, and loses
      nothing: the digest can be read back from it. */
  lemma {:induction false} HexRoundTrip(d: seq<Byte>)
    ensures |Hex(d)| == 2 * |d|
    ensures forall i :: 0 <= i < |Hex(d)| ==> IsLowerHexDigit(Hex(d)[i])
    ensures Unhex(Hex(d)) == d
  {
    if d != [] {
      HexRoundTrip(d[1..]);
      var h := Hex(d);
      assert h[2..] == Hex(d[1..]);
      assert HexValue(h[0]) == d[0] as int / 16 && HexValue(h[1]) == d[0] as int % 16;
    }
  }

  // ---- Selecting the algorithm ----

  datatype ConfigError = UnsupportedSignatureScheme(scheme: string)

  /** `StringUtils.remove(s, c)`: `s` with every `c` dropped. */
  function RemoveChar(s: string, c: char): string {
    if s == [] then [] else (if s[0] == c then [] else [s[0]]) + RemoveChar(s[1..], c)
  }

  predicate IsAsciiUpper(c: char) { 'A' <= c <= 'Z' }

  predicate IsAsciiLetter(c: char) { IsAsciiUpper(c) || 'a' <= c <= 'z' }

  /** ASCII lower-casing; every other character is left alone. */
  function AsciiLower(c: char): char {
    if IsAsciiUpper(c) then (c as int + 32) as char else c
  }

  /** The non-ASCII characters that Java's case-insensitive comparison
      equates with an ASCII letter (dotless i, dotted capital I, long s and
      the Kelvin sign), mapped to that letter. */
  function FoldToAscii(c: char): char {
    if c == '\U{0131}' || c == '\U{0130}' then 'i'
    else if c == '\U{017F}' then 's'
    else if c == '\U{212A}' then 'k'
    else AsciiLower(c)
  }

  /** `String.regionMatches(true, …)` on one position, where the first
      character is ASCII: equal, or the same letter up to case. */
  predicate CharEqualsIgnoreCase(n: char, c: char) {
    c == n || (IsAsciiLetter(n) && FoldToAscii(c) == AsciiLower(n))
  }

  /** `StringUtils.equalsIgnoreCase(name, s)` for an ASCII `name`. */
  predicate EqualsIgnoreCase(name: string, s: string) {
    |name| == |s| && forall i :: 0 <= i < |s| ==> CharEqualsIgnoreCase(name[i], s[i])
  }

  /** The first algorithm of `algs` whose name matches `s`. */
  function FindAlgorithm(algs: seq<HmacAlgorithm>, s: string): Option<HmacAlgorithm> {
    if algs == [] then None
    else if EqualsIgnoreCase(Name(algs[0]), s) then Some(algs[0])
    else FindAlgorithm(algs[1..], s)
  }

  /** The signature scheme named by the connection file: blank disables
      signing, otherwise the name without dashes must match an algorithm. */
  function ResolveScheme(scheme: Option<string>): Result<Option<HmacAlgorithm>, ConfigError> {
    if IsBlank(scheme) then Ok(None)
    else match FindAlgorithm(AllAlgorithms, RemoveChar(scheme.value, '-'))
      case None => Err(UnsupportedSignatureScheme(scheme.value))
      case Some(a) => Ok(Some(a))
  }

  /** `getHmacAlgorithm`: the loop over the algorithms in declaration order. */
  method GetHmacAlgorithm(scheme: Option<string>) returns (r: Result<Option<HmacAlgorithm>, ConfigError>)
    ensures r == ResolveScheme(scheme)
  {
    if IsBlank(scheme) {
      return Ok(None);
    }
    var algo := RemoveChar(scheme.value, '-');
    for i := 0 to |AllAlgorithms|
      invariant FindAlgorithm(AllAlgorithms[i..], algo) == FindAlgorithm(AllAlgorithms, algo)
    {
      if EqualsIgnoreCase(Name(AllAlgorithms[i]), algo) {
        return Ok(Some(AllAlgorithms[i]));
      }
      assert AllAlgorithms[i..][1..] == AllAlgorithms[i + 1..];
    }
    return Err(UnsupportedSignatureScheme(scheme.value));
  }

  /** `getKeyBytes`: a blank key is no key; otherwise the key encoded with
      the platform charset `encode`. */
  function KeyBytes(key: Option<string>, encode: string -> seq<Byte>): Option<seq<Byte>> {
    if IsBlank(key) then None else Some(encode(key.value))
  }

  /** No string matches two algorithms' names. */
  lemma NamesDistinguishable(a: HmacAlgorithm, b: HmacAlgorithm, s: string)
    requires EqualsIgnoreCase(Name(a), s) && EqualsIgnoreCase(Name(b), s)
    ensures a == b
  {
    if |s| == 10 {
      assert CharEqualsIgnoreCase(Name(a)[7], s[7]) && CharEqualsIgnoreCase(Name(b)[7], s[7]);
    }
  }

  lemma {:induction false} FindAlgorithmFinds(algs: seq<HmacAlgorithm>, s: string)
    ensures FindAlgorithm(algs, s).Some? ==>
              FindAlgorithm(algs, s).value in algs && EqualsIgnoreCase(Name(FindAlgorithm(algs, s).value), s)
    ensures FindAlgorithm(algs, s).None? ==> forall a :: a in algs ==> !EqualsIgnoreCase(Name(a), s)
  {
    if algs != [] {
      FindAlgorithmFinds(algs[1..], s);
      assert forall a :: a in algs ==> a == algs[0] || a in algs[1..];
    }
  }

  /** A non-blank scheme selects exactly the algorithm whose name it matches
      once its dashes are removed, ignoring case, and is refused when it
      matches none; a blank scheme selects no algorithm. */
  lemma SchemeResolution(scheme: Option<string>, a: HmacAlgorithm)
    ensures IsBlank(scheme) <==> ResolveScheme(scheme) == Ok(None)
    ensures ResolveScheme(scheme) == Ok(Some(a)) <==>
              !IsBlank(scheme) && EqualsIgnoreCase(Name(a), RemoveChar(scheme.value, '-'))
    ensures ResolveScheme(scheme).Err? <==>
              !IsBlank(scheme) && forall b :: !EqualsIgnoreCase(Name(b), RemoveChar(scheme.value, '-'))
  {
    if !IsBlank(scheme) {
      var algo := RemoveChar(scheme.value, '-');
      FindAlgorithmFinds(AllAlgorithms, algo);
      var found := FindAlgorithm(AllAlgorithms, algo);
      if found.Some? && EqualsIgnoreCase(Name(a), algo) {
        NamesDistinguishable(a, found.value, algo);
      }
      forall b ensures b in AllAlgorithms {
        match b
        case HmacMD5 => assert AllAlgorithms[0] == b;
        case HmacSHA1 => assert AllAlgorithms[1] == b;
        case HmacSHA256 => assert AllAlgorithms[2] == b;
        case HmacSHA384 => assert AllAlgorithms[3] == b;
        case HmacSHA512 => assert AllAlgorithms[4] == b;
      }
    }
  }

  lemma {:induction false} RemoveCharAppend(a: string, b: string, c: char)
    ensures RemoveChar(a + b, c) == RemoveChar(a, c) + RemoveChar(b, c)
  {
    if a != [] {
      var h := if a[0] == c then [] else [a[0]];
      assert (a + b)[0] == a[0];
      assert (a + b)[1..] == a[1..] + b;
      RemoveCharAppend(a[1..], b, c);
      calc {
        RemoveChar(a + b, c);
        h + RemoveChar(a[1..] + b, c);
        h + (RemoveChar(a[1..], c) + RemoveChar(b, c));
        (h + RemoveChar(a[1..], c)) + RemoveChar(b, c);
      }
    } else {
      assert a + b == b;
    }
  }

  lemma {:induction false} RemoveCharAbsent(s: string, c: char)
    requires forall i :: 0 <= i < |s| ==> s[i] != c
    ensures RemoveChar(s, c) == s
  {
    if s != [] {
      RemoveCharAbsent(s[1..], c);
    }
  }

  /** Removing the dash of `<front>-<back>`, where neither part holds one. */
  lemma DashRemoved(front: string, back: string)
    requires forall i :: 0 <= i < |front| ==> front[i] != '-'
    requires forall i :: 0 <= i < |back| ==> back[i] != '-'
    ensures RemoveChar(front + ("-" + back), '-') == front + back
  {
    RemoveCharAbsent(front, '-');
    RemoveCharAbsent(back, '-');
    RemoveCharAppend("-", back, '-');
    assert RemoveChar("-" + back, '-') == back;
    RemoveCharAppend(front, "-" + back, '-');
  }

  /** A scheme `<front>-<back>` resolves as `<front><back>` does. */
  lemma DashedScheme(front: string, back: string)
    requires |front| > 0 && !IsWhitespace(front[0])
    requires forall i :: 0 <= i < |front| ==> front[i] != '-'
    requires forall i :: 0 <= i < |back| ==> back[i] != '-'
    ensures !IsBlank(Some(front + ("-" + back)))
    ensures forall a :: ResolveScheme(Some(front + ("-" + back))) == Ok(Some(a)) <==> EqualsIgnoreCase(Name(a), front + back)
    ensures ResolveScheme(Some(front + ("-" + back))).Err? <==> forall b :: !EqualsIgnoreCase(Name(b), front + back)
  {
    var s := front + ("-" + back);
    assert s[0] == front[0];
    DashRemoved(front, back);
    forall a ensures ResolveScheme(Some(s)) == Ok(Some(a)) <==> EqualsIgnoreCase(Name(a), front + back) {
      SchemeResolution(Some(s), a);
    }
    SchemeResolution(Some(s), HmacMD5);
  }

  /** The scheme Jupyter writes, `hmac-sha256`, selects HMAC-SHA256. */
  lemma Sha256SchemeAccepted()
    ensures ResolveScheme(Some("hmac-sha256")) == Ok(Some(HmacSHA256))
  {
    DashedScheme("hmac", "sha256");
    assert "hmac-sha256" == "hmac" + ("-" + "sha256");
    assert EqualsIgnoreCase(Name(HmacSHA256), "hmac" + "sha256");
  }

  /** `hmac-sha1024` names no algorithm and is refused. */
  lemma Sha1024SchemeRefused()
    ensures ResolveScheme(Some("hmac-sha1024")) == Err(UnsupportedSignatureScheme("hmac-sha1024"))
  {
    DashedScheme("hmac", "sha1024");
    assert "hmac-sha1024" == "hmac" + ("-" + "sha1024");
    var joined := "hmac" + "sha1024";
    assert |joined| == 11;
    forall b ensures !EqualsIgnoreCase(Name(b), joined) {
      assert |Name(b)| <= 10;
    }
  }
}
