/** The pairing payload: one typed or scanned string carrying an enrollment code, a nonce and a secret. */
module PairingPayload {

  import opened Prelude

  const PAYLOAD_PREFIX := "mezair-pair-"
  const CODE_PREFIX := "mezair-ec-"
  const CODE_CHARS: nat := 20
  const NONCE_CHARS: nat := 16
  const SECRET_CHARS: nat := 64
  const BODY_CHARS := CODE_CHARS + NONCE_CHARS + SECRET_CHARS

  datatype Parts = Parts(enrollmentCode: string, pairingNonce: string, pairingSecret: string)

  // ---- Characters ----

  predicate Alnum(c: char) {
    'A' <= c <= 'Z' || 'a' <= c <= 'z' || '0' <= c <= '9'
  }

  /** What trim() removes. */
  predicate Space(c: char) {
    var u := c as int;
    || 9 <= u <= 13 || u == 32 || u == 0xA0 || u == 0x1680 || 0x2000 <= u <= 0x200A
    || u == 0x2028 || u == 0x2029 || u == 0x202F || u == 0x205F || u == 0x3000 || u == 0xFEFF
  }

  function Lower(c: char): char {
    if 'A' <= c <= 'Z' then (c as int + 32) as char else c
  }

  /** No character outside ASCII lower-cases to one of the prefixes' characters alone. */
  predicate OpensWith(s: string, prefix: string) {
    |prefix| <= |s| && forall i :: 0 <= i < |prefix| ==> Lower(s[i]) == prefix[i]
  }

  function TrimStart(s: string): string {
    if s != [] && Space(s[0]) then TrimStart(s[1..]) else s
  }

  function TrimEnd(s: string): string {
    if s != [] && Space(s[|s| - 1]) then TrimEnd(s[..|s| - 1]) else s
  }

  function Trim(s: string): string {
    TrimEnd(TrimStart(s))
  }

  function AlnumOnly(s: string): string {
    if s == [] then [] else (if Alnum(s[0]) then [s[0]] else []) + AlnumOnly(s[1..])
  }

  predicate AllAlnum(s: string) {
    forall i :: 0 <= i < |s| ==> Alnum(s[i])
  }

  // ---- Codes and payloads ----

  function NormalizeCode(code: string): Option<string> {
    var body := AlnumOnly(if OpensWith(code, CODE_PREFIX) then code[|CODE_PREFIX|..] else code);
    if |body| == CODE_CHARS then Some(body) else None
  }

  /** Runs of five, joined by hyphens. */
  function Grouped(body: string): string {
    if |body| <= 5 then body else body[..5] + "-" + Grouped(body[5..])
  }

  function BodyOf(x: Parts): Option<string> {
    var code := NormalizeCode(x.enrollmentCode);
    var nonce, secret := AlnumOnly(x.pairingNonce), AlnumOnly(x.pairingSecret);
    if code == None || |nonce| != NONCE_CHARS || |secret| != SECRET_CHARS then None else Some(code.value + nonce + secret)
  }

  function Encoded(x: Parts): Option<string> {
    var body := BodyOf(x);
    if body == None then None else Some(PAYLOAD_PREFIX + Grouped(body.value))
  }

  function DisplayCode(code: string): string
    requires |code| == CODE_CHARS
  {
    CODE_PREFIX + code[0..5] + "-" + code[5..10] + "-" + code[10..15] + "-" + code[15..20]
  }

  function Decode(value: string): Option<Parts> {
    var trimmed := Trim(value);
    if !OpensWith(trimmed, PAYLOAD_PREFIX) then None
    else
      var body := AlnumOnly(trimmed[|PAYLOAD_PREFIX|..]);
      if |body| != BODY_CHARS then None
      else Some(Parts(DisplayCode(body[..CODE_CHARS]), body[CODE_CHARS..CODE_CHARS + NONCE_CHARS],
                      body[CODE_CHARS + NONCE_CHARS..]))
  }

  // ---- The loop ----

  function Join(groups: seq<string>): string {
    if groups == [] then [] else if |groups| == 1 then groups[0] else groups[0] + "-" + Join(groups[1..])
  }

  lemma {:induction false} JoinAppends(groups: seq<string>, last: string)
    ensures Join(groups + [last]) == if groups == [] then last else Join(groups) + "-" + last
  {
    if |groups| > 1 {
      JoinAppends(groups[1..], last);
      assert (groups + [last])[1..] == groups[1..] + [last];
    } else if |groups| == 1 {
      assert (groups + [last])[1..] == [last];
    }
  }

  /** The characters before and after a boundary of groups. */
  lemma {:induction false} GroupedSplits(body: string, i: nat)
    requires 0 < i < |body| && i % 5 == 0
    ensures Grouped(body) == Grouped(body[..i]) + "-" + Grouped(body[i..])
  {
    if i > 5 {
      GroupedSplits(body[5..], i - 5);
      assert body[..i][..5] == body[..5] && body[..i][5..] == body[5..][..i - 5] && body[5..][i - 5..] == body[i..];
    }
  }

  method Encode(x: Parts) returns (payload: Option<string>)
    ensures payload == Encoded(x)
  {
    hide AlnumOnly, OpensWith;
    var code := NormalizeCode(x.enrollmentCode);
    var nonce := AlnumOnly(x.pairingNonce);
    var secret := AlnumOnly(x.pairingSecret);
    if code == None { return None; }
    if |nonce| != NONCE_CHARS || |secret| != SECRET_CHARS { return None; }
    var body := code.value + nonce + secret;
    var groups: seq<string> := [];
    var i := 0;
    while i < |body|
      invariant 0 <= i <= |body| && i % 5 == 0
      invariant groups == [] <==> i == 0
      invariant Join(groups) == Grouped(body[..i])
    {
      JoinAppends(groups, body[i..i + 5]);
      NextGroup(body, i);
      groups := groups + [body[i..i + 5]];
      i := i + 5;
    }
    assert body[..i] == body;
    payload := Some(PAYLOAD_PREFIX + Join(groups));
  }

  lemma NextGroup(body: string, i: nat)
    requires i + 5 <= |body| && i % 5 == 0
    ensures Grouped(body[..i + 5]) == if i == 0 then body[i..i + 5] else Grouped(body[..i]) + "-" + body[i..i + 5]
  {
    if i > 0 {
      var b := body[..i + 5];
      GroupedSplits(b, i);
      assert b[..i] == body[..i] && b[i..] == body[i..i + 5];
    }
  }

  // ---- Filtering ----

  lemma Associates(a: string, b: string, c: string)
    ensures a + (b + c) == a + b + c
  {
  }

  lemma {:induction false} AlnumAppends(a: string, b: string)
    ensures AlnumOnly(a + b) == AlnumOnly(a) + AlnumOnly(b)
  {
    if a == [] {
      assert a + b == b;
    } else {
      AlnumAppends(a[1..], b);
      hide Alnum;
      assert (a + b)[1..] == a[1..] + b && (a + b)[0] == a[0];
      Associates(if Alnum(a[0]) then [a[0]] else [], AlnumOnly(a[1..]), AlnumOnly(b));
    }
  }

  lemma {:induction false} AlnumKeeps(s: string)
    ensures AllAlnum(AlnumOnly(s))
    ensures AllAlnum(s) ==> AlnumOnly(s) == s
  {
    if s != [] {
      AlnumKeeps(s[1..]);
      assert s == [s[0]] + s[1..];
    }
  }

  lemma {:induction false} GroupedFilters(body: string)
    requires AllAlnum(body)
    ensures AlnumOnly(Grouped(body)) == body
  {
    AlnumKeeps(body);
    if |body| > 5 {
      var (first, rest) := (body[..5], body[5..]);
      assert Grouped(body) == first + "-" + Grouped(rest);
      assert AlnumOnly("-") == "";
      hide AlnumOnly, Grouped, Alnum;
      GroupedFilters(rest);
      AlnumKeeps(first);
      AlnumAppends(first + "-", Grouped(rest));
      AlnumAppends(first, "-");
      assert body == first + rest;
    }
  }

  lemma GroupedEnds(body: string)
    requires AllAlnum(body) && body != []
    ensures Grouped(body) != [] && Alnum(Grouped(body)[|Grouped(body)| - 1])
  {
  }

  // ---- Trimming and prefixes ----

  lemma TrimKeeps(s: string)
    requires s != [] && !Space(s[0]) && !Space(s[|s| - 1])
    ensures Trim(s) == s
  {
  }

  lemma PrefixOpens(prefix: string, rest: string)
    requires forall i :: 0 <= i < |prefix| ==> Lower(prefix[i]) == prefix[i]
    ensures OpensWith(prefix + rest, prefix) && (prefix + rest)[|prefix|..] == rest
  {
  }

  lemma PrefixesAreLower()
    ensures forall i :: 0 <= i < |PAYLOAD_PREFIX| ==> Lower(PAYLOAD_PREFIX[i]) == PAYLOAD_PREFIX[i]
    ensures forall i :: 0 <= i < |CODE_PREFIX| ==> Lower(CODE_PREFIX[i]) == CODE_PREFIX[i]
    ensures |PAYLOAD_PREFIX| == 12 && |CODE_PREFIX| == 10 && PAYLOAD_PREFIX[0] == 'm'
  {
  }

  /** The displayed form of a code normalises to the code. */
  lemma DisplayNormalizes(code: string)
    requires AllAlnum(code) && |code| == CODE_CHARS
    ensures NormalizeCode(DisplayCode(code)) == Some(code)
  {
    hide AlnumOnly, OpensWith;
    var rest := code[0..5] + "-" + code[5..10] + "-" + code[10..15] + "-" + code[15..20];
    assert DisplayCode(code) == CODE_PREFIX + rest;
    PrefixesAreLower();
    PrefixOpens(CODE_PREFIX, rest);
    FourGroups(code);
    GroupedFilters(code);
  }

  lemma FourGroups(code: string)
    requires |code| == CODE_CHARS
    ensures Grouped(code) == code[0..5] + "-" + code[5..10] + "-" + code[10..15] + "-" + code[15..20]
  {
    var (a, b, c, d) := (code[0..5], code[5..10], code[10..15], code[15..20]);
    assert Grouped(code[15..]) == d by { assert code[15..] == d; }
    assert Grouped(code[10..]) == c + "-" + d by { assert code[10..][..5] == c && code[10..][5..] == code[15..]; }
    assert Grouped(code[5..]) == b + "-" + Grouped(code[10..]) by { assert code[5..][..5] == b && code[5..][5..] == code[10..]; }
    assert Grouped(code) == a + "-" + Grouped(code[5..]) by { assert code[..5] == a; }
    hide Grouped;
    assert a + "-" + (b + "-" + (c + "-" + d)) == a + "-" + b + "-" + c + "-" + d;
  }

  /** Every string decodes like the canonical string of its body. */
  lemma CanonicalDecodes(body: string)
    requires AllAlnum(body) && |body| == BODY_CHARS
    ensures Decode(PAYLOAD_PREFIX + Grouped(body)) ==
              Some(Parts(DisplayCode(body[..CODE_CHARS]), body[CODE_CHARS..CODE_CHARS + NONCE_CHARS],
                         body[CODE_CHARS + NONCE_CHARS..]))
  {
    var s := PAYLOAD_PREFIX + Grouped(body);
    PrefixesAreLower();
    GroupedEnds(body);
    assert s[0] == 'm' && s[|s| - 1] == Grouped(body)[|Grouped(body)| - 1];
    TrimKeeps(s);
    PrefixOpens(PAYLOAD_PREFIX, Grouped(body));
    GroupedFilters(body);
    hide AlnumOnly, OpensWith, Trim, Grouped, DisplayCode;
  }

  lemma PartsNormalize(body: string)
    requires AllAlnum(body) && |body| == BODY_CHARS
    ensures BodyOf(Parts(DisplayCode(body[..CODE_CHARS]), body[CODE_CHARS..CODE_CHARS + NONCE_CHARS],
                         body[CODE_CHARS + NONCE_CHARS..])) == Some(body)
  {
    var (code, nonce, secret) :=
      (body[..CODE_CHARS], body[CODE_CHARS..CODE_CHARS + NONCE_CHARS], body[CODE_CHARS + NONCE_CHARS..]);
    ThreeParts(body, CODE_CHARS, CODE_CHARS + NONCE_CHARS);
    DisplayNormalizes(code);
    AlnumKeeps(nonce);
    AlnumKeeps(secret);
    hide AlnumOnly, NormalizeCode, DisplayCode, AllAlnum;
  }

  lemma ThreeParts(s: string, m: nat, n: nat)
    requires AllAlnum(s) && m <= n <= |s|
    ensures s[..m] + s[m..n] + s[n..] == s
    ensures AllAlnum(s[..m]) && AllAlnum(s[m..n]) && AllAlnum(s[n..])
  {
    hide Alnum;
  }

  lemma BodyIsAlnum(x: Parts)
    requires BodyOf(x).Some?
    ensures AllAlnum(BodyOf(x).value) && |BodyOf(x).value| == BODY_CHARS
  {
    AlnumKeeps(if OpensWith(x.enrollmentCode, CODE_PREFIX) then x.enrollmentCode[|CODE_PREFIX|..] else x.enrollmentCode);
    AlnumKeeps(x.pairingNonce);
    AlnumKeeps(x.pairingSecret);
    hide AlnumOnly, OpensWith;
  }

  // ---- What callers may rely on ----

  /** Decoding an encoded payload gives back the normalised code, nonce and secret. */
  lemma RoundTrip(x: Parts)
    requires Encoded(x).Some?
    ensures var y := Decode(Encoded(x).value);
            && y.Some?
            && NormalizeCode(y.value.enrollmentCode) == NormalizeCode(x.enrollmentCode)
            && y.value.pairingNonce == AlnumOnly(x.pairingNonce)
            && y.value.pairingSecret == AlnumOnly(x.pairingSecret)
  {
    hide AlnumOnly, OpensWith, Decode, Grouped, DisplayCode;
    var body := BodyOf(x).value;
    BodyIsAlnum(x);
    CanonicalDecodes(body);
    var code := NormalizeCode(x.enrollmentCode).value;
    assert body[..CODE_CHARS] == code;
    DisplayNormalizes(code) by { assert forall i :: 0 <= i < |code| ==> code[i] == body[i]; }
    assert body[CODE_CHARS..CODE_CHARS + NONCE_CHARS] == AlnumOnly(x.pairingNonce);
    assert body[CODE_CHARS + NONCE_CHARS..] == AlnumOnly(x.pairingSecret);
  }

  /** Re-encoding a decodable string gives the one canonical string of its parts, and doing it again changes nothing. */
  lemma Canonical(value: string)
    requires Decode(value).Some?
    ensures var again := Encoded(Decode(value).value);
            && again.Some? && Decode(again.value) == Decode(value)
            && Encoded(Decode(again.value).value) == again
  {
    var body := AlnumOnly(Trim(value)[|PAYLOAD_PREFIX|..]);
    AlnumKeeps(Trim(value)[|PAYLOAD_PREFIX|..]);
    hide AlnumOnly, OpensWith, Grouped, DisplayCode, BodyOf, Trim;
    PartsNormalize(body);
    CanonicalDecodes(body);
  }

  /** Exactly the strings that decode alike have one canonical form. */
  lemma CanonicalIsComplete(v: string, w: string)
    requires Decode(v).Some? && Decode(w).Some?
    ensures Decode(v) == Decode(w) <==> Encoded(Decode(v).value) == Encoded(Decode(w).value)
  {
    hide Decode, Encoded;
    Canonical(v);
    Canonical(w);
  }
}
