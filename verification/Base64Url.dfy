/** Unpadded base64url: the encoder of auth.ts against the canonicality check of device-security.ts. */
module Base64Url {

  const CAPITALS := "ABCDEFGHIJKLMNOPQRSTUVWXYZ"
  const SMALL := "abcdefghijklmnopqrstuvwxyz"
  const NUMERALS := "0123456789"
  const ALPHABET := CAPITALS + SMALL + NUMERALS + "-_"

  // ---- The alphabet ----

  predicate IsDigit(d: int) {
    0 <= d < 64
  }

  function Symbol(d: int): char
    requires IsDigit(d)
  {
    ALPHABET[d]
  }

  /** The first position of c from i on, or -1. */
  function IndexFrom(c: char, i: nat): (r: int)
    requires i <= 64
    ensures r == -1 || IsDigit(r)
    decreases 64 - i
  {
    if i == 64 then -1 else if Symbol(i) == c then i else IndexFrom(c, i + 1)
  }

  function IndexOf(c: char): (r: int)
    ensures r == -1 || IsDigit(r)
  {
    IndexFrom(c, 0)
  }

  /** The character class of the check. */
  predicate UrlSafe(c: char) {
    'A' <= c <= 'Z' || 'a' <= c <= 'z' || '0' <= c <= '9' || c == '_' || c == '-'
  }

  /** Where the alphabet puts its symbols. */
  function Place(c: char): int {
    if 'A' <= c <= 'Z' then c as int - 65
    else if 'a' <= c <= 'z' then c as int - 97 + 26
    else if '0' <= c <= '9' then c as int - 48 + 52
    else if c == '-' then 62
    else if c == '_' then 63
    else -1
  }

  lemma CapitalPlaces(d: int)
    requires 0 <= d < 26
    ensures CAPITALS[d] as int == 65 + d
  {
    if d >= 13 { assert CAPITALS[d] as int == 65 + d; }
  }

  lemma SmallPlaces(d: int)
    requires 0 <= d < 26
    ensures SMALL[d] as int == 97 + d
  {
    if d >= 13 { assert SMALL[d] as int == 97 + d; }
  }

  lemma SymbolPlaces(d: int)
    requires IsDigit(d)
    ensures Place(Symbol(d)) == d && UrlSafe(Symbol(d))
  {
    if d < 26 { CapitalPlaces(d); assert Symbol(d) == CAPITALS[d]; }
    else if d < 52 { SmallPlaces(d - 26); assert Symbol(d) == SMALL[d - 26]; }
    else if d < 62 { assert Symbol(d) == NUMERALS[d - 52]; assert NUMERALS[d - 52] as int == 48 + d - 52; }
    else { assert Symbol(d) == "-_"[d - 62]; }
  }

  lemma {:induction false} FirstIndex(c: char, i: nat, d: nat)
    requires i <= d < 64 && Symbol(d) == c
    ensures IndexFrom(c, i) == d
    decreases d - i
  {
    hide Symbol;
    SymbolPlaces(d);
    SymbolPlaces(i);
    if i < d { FirstIndex(c, i + 1, d); }
  }

  /** The alphabet lists exactly the characters of the class, once each. */
  lemma AlphabetIsExact(c: char)
    ensures UrlSafe(c) <==> IndexOf(c) >= 0
    ensures UrlSafe(c) ==> Symbol(IndexOf(c)) == c
    ensures forall d :: IsDigit(d) ==> IndexOf(Symbol(d)) == d && UrlSafe(Symbol(d))
  {
    hide Symbol;
    forall d | IsDigit(d)
      ensures IndexOf(Symbol(d)) == d && UrlSafe(Symbol(d))
    {
      SymbolPlaces(d);
      FirstIndex(Symbol(d), 0, d);
    }
    if UrlSafe(c) {
      SymbolPlaces(Place(c));
      assert Symbol(Place(c)) == c;
    } else {
      NotFound(c, 0);
    }
  }

  lemma {:induction false} NotFound(c: char, i: nat)
    requires i <= 64 && !UrlSafe(c)
    ensures IndexFrom(c, i) == -1
    decreases 64 - i
  {
    hide Symbol;
    if i < 64 {
      SymbolPlaces(i);
      NotFound(c, i + 1);
    }
  }

  // ---- Bytes and digits ----

  predicate IsBytes(bytes: seq<int>) {
    forall i :: 0 <= i < |bytes| ==> 0 <= bytes[i] < 256
  }

  predicate AreDigits(digits: seq<int>) {
    forall i :: 0 <= i < |digits| ==> IsDigit(digits[i])
  }

  function Digit0(x: int): int { x / 4 }

  function Digit1(x: int, y: int): int { x % 4 * 16 + y / 16 }

  function Digit2(y: int, z: int): int { y % 16 * 4 + z / 64 }

  function Digit3(z: int): int { z % 64 }

  function Byte0(a: int, b: int): int { a * 4 + b / 16 }

  function Byte1(b: int, c: int): int { b % 16 * 16 + c / 4 }

  function Byte2(c: int, d: int): int { c % 4 * 64 + d }

  /** Three bytes as four digits; a missing byte counts as zero and its digit is left out. */
  function Group(bytes: seq<int>): seq<int>
    requires 1 <= |bytes| <= 3
  {
    var (a, b, c) := (bytes[0], if |bytes| > 1 then bytes[1] else 0, if |bytes| > 2 then bytes[2] else 0);
    [Digit0(a), Digit1(a, b), Digit2(b, c), Digit3(c)][..|bytes| + 1]
  }

  /** Four digits as three bytes; bits that fill no byte are dropped. */
  function Combine(digits: seq<int>): seq<int>
    requires 2 <= |digits| <= 4
  {
    var (a, b, c, d) := (digits[0], digits[1], if |digits| > 2 then digits[2] else 0, if |digits| > 3 then digits[3] else 0);
    [Byte0(a, b), Byte1(b, c), Byte2(c, d)][..|digits| - 1]
  }

  /** The bits of the bytes in groups of six, zero bits filling up the last group. */
  function Regroup(bytes: seq<int>): seq<int> {
    if bytes == [] then []
    else if |bytes| <= 3 then Group(bytes)
    else Group(bytes[..3]) + Regroup(bytes[3..])
  }

  function Ungroup(digits: seq<int>): seq<int> {
    if |digits| < 2 then []
    else if |digits| <= 4 then Combine(digits)
    else Combine(digits[..4]) + Ungroup(digits[4..])
  }

  /** The right number of digits for n bytes, the bits of the last one that fill no byte zero. */
  predicate FitsBytes(digits: seq<int>, n: nat) {
    && AreDigits(digits) && |digits| == (n * 8 + 5) / 6
    && (n % 3 == 1 ==> digits[|digits| - 1] % 16 == 0)
    && (n % 3 == 2 ==> digits[|digits| - 1] % 4 == 0)
  }

  lemma DigitsOfBytes(x: int, y: int, z: int)
    requires 0 <= x < 256 && 0 <= y < 256 && 0 <= z < 256
    ensures var (a, b, c, d) := (Digit0(x), Digit1(x, y), Digit2(y, z), Digit3(z));
            && IsDigit(a) && IsDigit(b) && IsDigit(c) && IsDigit(d)
            && Byte0(a, b) == x && Byte1(b, c) == y && Byte2(c, d) == z
            && (y == 0 ==> b % 16 == 0) && (z == 0 ==> c % 4 == 0)
  {
  }

  lemma BytesOfDigits(a: int, b: int, c: int, d: int)
    requires IsDigit(a) && IsDigit(b) && IsDigit(c) && IsDigit(d)
    ensures var (x, y, z) := (Byte0(a, b), Byte1(b, c), Byte2(c, d));
            && 0 <= x < 256 && 0 <= y < 256 && 0 <= z < 256
            && Digit0(x) == a && Digit1(x, y) == b && Digit2(y, z) == c && Digit3(z) == d
            && (b % 16 == 0 && c == 0 ==> y == 0) && (c % 4 == 0 && d == 0 ==> z == 0)
  {
  }

  lemma GroupFits(bytes: seq<int>)
    requires IsBytes(bytes) && 1 <= |bytes| <= 3
    ensures FitsBytes(Group(bytes), |bytes|) && Combine(Group(bytes)) == bytes
  {
    hide Digit0, Digit1, Digit2, Digit3, Byte0, Byte1, Byte2;
    DigitsOfBytes(bytes[0], if |bytes| > 1 then bytes[1] else 0, if |bytes| > 2 then bytes[2] else 0);
  }

  lemma CombineFits(digits: seq<int>, n: nat)
    requires FitsBytes(digits, n) && 1 <= n <= 3
    ensures IsBytes(Combine(digits)) && |Combine(digits)| == n && Group(Combine(digits)) == digits
  {
    hide Digit0, Digit1, Digit2, Digit3, Byte0, Byte1, Byte2;
    BytesOfDigits(digits[0], digits[1], if |digits| > 2 then digits[2] else 0, if |digits| > 3 then digits[3] else 0);
  }

  /** A whole group in front changes nothing for the rest. */
  lemma FitsBehind(a: seq<int>, b: seq<int>, n: nat)
    requires AreDigits(a) && |a| == 4 && n > 0
    ensures FitsBytes(a + b, n + 3) <==> FitsBytes(b, n)
  {
    var ab := a + b;
    assert (forall i :: 0 <= i < |b| ==> ab[i + 4] == b[i]) && forall i :: 0 <= i < 4 ==> ab[i] == a[i];
    assert ((n + 3) * 8 + 5) / 6 == (n * 8 + 5) / 6 + 4 && (n + 3) % 3 == n % 3;
    if AreDigits(ab) {
      forall i | 0 <= i < |b|
        ensures IsDigit(b[i])
      {
        assert IsDigit(ab[i + 4]);
      }
    }
  }

  lemma {:induction false} RegroupFits(bytes: seq<int>)
    requires IsBytes(bytes)
    ensures FitsBytes(Regroup(bytes), |bytes|) && Ungroup(Regroup(bytes)) == bytes
  {
    hide Group, Combine, FitsBytes;
    if |bytes| > 3 {
      var (first, rest) := (Group(bytes[..3]), bytes[3..]);
      GroupFits(bytes[..3]);
      assert AreDigits(first) && |first| == 4 by { FitsMeans(first, 3); }
      RegroupFits(rest);
      FitsBehind(first, Regroup(rest), |rest|);
      FitsMeans(Regroup(rest), |rest|);
      assert (first + Regroup(rest))[..4] == first && (first + Regroup(rest))[4..] == Regroup(rest);
      assert bytes == bytes[..3] + rest;
    } else if bytes == [] {
      FitsNothing();
    } else {
      GroupFits(bytes);
      FitsMeans(Group(bytes), |bytes|);
    }
  }

  lemma FitsNothing()
    ensures FitsBytes([], 0)
  {
  }

  lemma FitsMeans(digits: seq<int>, n: nat)
    requires FitsBytes(digits, n)
    ensures AreDigits(digits) && |digits| == (n * 8 + 5) / 6
  {
  }

  lemma {:induction false} UngroupFits(digits: seq<int>, n: nat)
    requires FitsBytes(digits, n)
    ensures IsBytes(Ungroup(digits)) && |Ungroup(digits)| == n && Regroup(Ungroup(digits)) == digits
    decreases n
  {
    FitsMeans(digits, n);
    hide Group, Combine, FitsBytes;
    if n > 3 {
      var (first, rest) := (digits[..4], digits[4..]);
      assert digits == first + rest;
      FitsBehind(first, rest, n - 3);
      FitsMeans(rest, n - 3);
      FullGroup(first);
      CombineFits(first, 3);
      UngroupFits(rest, n - 3);
      assert Ungroup(digits)[..3] == Combine(first) && Ungroup(digits)[3..] == Ungroup(rest);
    } else if n > 0 {
      CombineFits(digits, n);
    }
  }

  lemma FullGroup(digits: seq<int>)
    requires AreDigits(digits) && |digits| == 4
    ensures FitsBytes(digits, 3)
  {
  }

  // ---- Texts ----

  function Spell(digits: seq<int>): string
    requires AreDigits(digits)
  {
    seq(|digits|, i requires 0 <= i < |digits| => Symbol(digits[i]))
  }

  function Encoded(bytes: seq<int>): string
    requires IsBytes(bytes)
  {
    RegroupFits(bytes);
    Spell(Regroup(bytes))
  }

  predicate AllUrlSafe(s: string) {
    s != [] && forall i :: 0 <= i < |s| ==> UrlSafe(s[i])
  }

  /** isCanonicalBase64Url with its byte length given. */
  predicate IsCanonical(s: string, n: nat) {
    && AllUrlSafe(s)
    && |s| == (n * 8 + 5) / 6
    && (n % 3 == 0 ||
        var last := IndexOf(s[|s| - 1]);
        last >= 0 && last % (if n % 3 == 1 then 16 else 4) == 0)
  }

  /** The digits a text spells. */
  function DigitsOf(s: string): seq<int> {
    seq(|s|, i requires 0 <= i < |s| => IndexOf(s[i]))
  }

  lemma SpellingIsExact(s: string, digits: seq<int>)
    requires AreDigits(digits)
    ensures DigitsOf(Spell(digits)) == digits && forall i :: 0 <= i < |digits| ==> UrlSafe(Spell(digits)[i])
    ensures (forall i :: 0 <= i < |s| ==> UrlSafe(s[i])) ==> AreDigits(DigitsOf(s)) && Spell(DigitsOf(s)) == s
  {
    hide Symbol, IndexOf;
    AlphabetIsExact('A');
    if forall i :: 0 <= i < |s| ==> UrlSafe(s[i]) {
      forall i | 0 <= i < |s|
        ensures IsDigit(IndexOf(s[i])) && Symbol(IndexOf(s[i])) == s[i]
      {
        AlphabetIsExact(s[i]);
      }
    }
  }

  lemma CanonicalFits(s: string, n: nat)
    requires AllUrlSafe(s)
    ensures IsCanonical(s, n) <==> FitsBytes(DigitsOf(s), n)
  {
    hide IndexOf, Symbol;
    SpellingIsExact(s, []);
  }

  /** For every length the accepted texts are exactly the encodings, except that the empty text is never accepted. */
  lemma AcceptedAreEncodings(s: string, n: nat)
    ensures IsCanonical(s, n) <==> n > 0 && exists bytes: seq<int> :: IsBytes(bytes) && |bytes| == n && Encoded(bytes) == s
  {
    hide Regroup, Ungroup, Symbol, IndexOf, IsBytes, FitsBytes, Spell, IsCanonical;
    if IsCanonical(s, n) {
      assert AllUrlSafe(s) && n > 0 by { EmptyNeverAccepted(s, n); }
      CanonicalFits(s, n);
      SpellingIsExact(s, []);
      var bytes := Ungroup(DigitsOf(s));
      UngroupFits(DigitsOf(s), n);
      assert Encoded(bytes) == s;
    }
    if bytes: seq<int> :| n > 0 && IsBytes(bytes) && |bytes| == n && Encoded(bytes) == s {
      EncodingAccepted(bytes);
    }
  }

  lemma EmptyNeverAccepted(s: string, n: nat)
    requires IsCanonical(s, n)
    ensures AllUrlSafe(s) && n > 0
  {
  }

  lemma EncodingAccepted(bytes: seq<int>)
    requires IsBytes(bytes) && bytes != []
    ensures IsCanonical(Encoded(bytes), |bytes|)
  {
    RegroupFits(bytes);
    SpellingIsExact("", Regroup(bytes));
    assert |Regroup(bytes)| > 0;
    CanonicalFits(Encoded(bytes), |bytes|);
  }

  /** Each text encodes at most one sequence of bytes. */
  lemma EncodingIsInjective(a: seq<int>, b: seq<int>)
    requires IsBytes(a) && IsBytes(b) && Encoded(a) == Encoded(b)
    ensures a == b
  {
    RegroupFits(a);
    RegroupFits(b);
    SpellingIsExact("", Regroup(a));
    SpellingIsExact("", Regroup(b));
  }

  // ---- The loop ----

  lemma Quotients(q: int, r: int)
    ensures 0 <= r < 262144 ==> (q * 262144 + r) / 262144 == q
    ensures 0 <= r < 4096 ==> (q * 4096 + r) / 4096 == q
    ensures 0 <= r < 64 ==> (q * 64 + r) / 64 == q && (q * 64 + r) % 64 == r
  {
  }

  lemma FourDigits(a: int, b: int, c: int, d: int)
    requires IsDigit(a) && IsDigit(b) && IsDigit(c) && IsDigit(d)
    ensures var t := a * 262144 + b * 4096 + c * 64 + d;
            t / 262144 % 64 == a && t / 4096 % 64 == b && t / 64 % 64 == c && t % 64 == d
  {
    Quotients(a, b * 4096 + c * 64 + d);
    Quotients(a * 64 + b, c * 64 + d);
    Quotients(a * 4096 + b * 64 + c, d);
    Quotients(a, b);
    Quotients(a * 64 + b, c);
  }

  lemma TripletDigits(first: int, second: int, third: int)
    requires 0 <= first < 256 && 0 <= second < 256 && 0 <= third < 256
    ensures var t := first * 65536 + second * 256 + third;
            && t / 262144 % 64 == Digit0(first) && t / 4096 % 64 == Digit1(first, second)
            && t / 64 % 64 == Digit2(second, third) && t % 64 == Digit3(third)
  {
    var (a, b, c, d) := (Digit0(first), Digit1(first, second), Digit2(second, third), Digit3(third));
    assert first * 65536 + second * 256 + third == a * 262144 + b * 4096 + c * 64 + d;
    FourDigits(a, b, c, d);
  }

  lemma SpellAppends(digits: seq<int>, more: seq<int>)
    requires AreDigits(digits) && AreDigits(more)
    ensures AreDigits(digits + more) && Spell(digits + more) == Spell(digits) + Spell(more)
  {
    hide Symbol;
  }

  /** The loop takes the first group off the rest. */
  lemma NextGroup(bytes: seq<int>, i: nat)
    requires i < |bytes|
    ensures var end := if |bytes| - i > 3 then i + 3 else |bytes|;
            Regroup(bytes[i..]) == Group(bytes[i..end]) + Regroup(bytes[end..])
  {
    hide Group;
    var rest := bytes[i..];
    if |rest| > 3 {
      assert rest[..3] == bytes[i..i + 3] && rest[3..] == bytes[i + 3..];
    } else {
      assert rest == bytes[i..|bytes|] && bytes[|bytes|..] == [];
    }
  }

  lemma SpellFour(a: int, b: int, c: int, d: int, n: nat)
    requires IsDigit(a) && IsDigit(b) && IsDigit(c) && IsDigit(d) && n <= 4
    ensures AreDigits([a, b, c, d][..n])
    ensures Spell([a, b, c, d][..n]) == [Symbol(a), Symbol(b), Symbol(c), Symbol(d)][..n]
  {
    hide Symbol;
  }

  /** What the body of the loop appends for one group. */
  lemma GroupSpelled(chunk: seq<int>)
    requires IsBytes(chunk) && 1 <= |chunk| <= 3
    ensures AreDigits(Group(chunk))
    ensures var t := chunk[0] * 65536 + (if |chunk| > 1 then chunk[1] else 0) * 256 + if |chunk| > 2 then chunk[2] else 0;
            Spell(Group(chunk)) ==
              [Symbol(t / 262144 % 64), Symbol(t / 4096 % 64), Symbol(t / 64 % 64), Symbol(t % 64)][..|chunk| + 1]
  {
    hide Symbol, Spell, Digit0, Digit1, Digit2, Digit3;
    var (a, b, c) := (chunk[0], if |chunk| > 1 then chunk[1] else 0, if |chunk| > 2 then chunk[2] else 0);
    DigitsOfBytes(a, b, c);
    SpellFour(Digit0(a), Digit1(a, b), Digit2(b, c), Digit3(c), |chunk| + 1);
    TripletDigits(a, b, c);
  }

  /** base64UrlEncode; shifting and masking a nonnegative number are dividing and taking remainders. */
  method Encode(bytes: seq<int>) returns (output: string)
    requires IsBytes(bytes)
    ensures output == Encoded(bytes)
  {
    hide Symbol, Spell, Regroup, Group, Combine, Ungroup;
    output := Spell([]) by { SpellAppends([], []); }
    ghost var digits: seq<int> := [];
    var i := 0;
    while i < |bytes|
      invariant 0 <= i
      invariant AreDigits(digits) && output == Spell(digits)
      invariant digits + Regroup(bytes[if i <= |bytes| then i else |bytes|..]) == Regroup(bytes)
    {
      var first := bytes[i];
      var second := if i + 1 < |bytes| then bytes[i + 1] else 0;
      var third := if i + 2 < |bytes| then bytes[i + 2] else 0;
      var remaining := |bytes| - i;
      var triplet := first * 65536 + second * 256 + third;
      ghost var before := output;
      ghost var chunk := bytes[i..if remaining > 3 then i + 3 else |bytes|];
      NextGroup(bytes, i);
      GroupSpelled(chunk);
      SpellAppends(digits, Group(chunk));
      output := output + [Symbol(triplet / 262144 % 64)];
      output := output + [Symbol(triplet / 4096 % 64)];
      if remaining > 1 {
        output := output + [Symbol(triplet / 64 % 64)];
      }
      if remaining > 2 {
        output := output + [Symbol(triplet % 64)];
      }
      assert output == before + Spell(Group(chunk));
      digits := digits + Group(chunk);
      i := i + 3;
    }
    NothingLeft(bytes);
    assert digits + [] == digits;
  }

  lemma NothingLeft(bytes: seq<int>)
    ensures Regroup(bytes[|bytes|..]) == []
  {
  }
}
