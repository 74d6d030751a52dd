/** Resource IDs: a slash-separated path, printed, then encoded as unpadded base64url (RFC 4648, section 5)
    over its UTF-8 bytes. Every stage is injective, so an ID names one position. */
module Paths {
  import opened Decimal
  import opened Text

  // ---- Paths of slash-free segments ----

  predicate SlashFree(s: string) {
    '/' !in s
  }

  predicate AllSlashFree(segments: seq<string>) {
    forall i :: 0 <= i < |segments| ==> SlashFree(segments[i])
  }

  function Join(segments: seq<string>): string {
    if segments == [] then "" else "/" + segments[0] + Join(segments[1..])
  }

  lemma SegmentEnds(x: string, rest: string, y: string, other: string)
    requires SlashFree(x) && SlashFree(y)
    requires rest == "" || rest[0] == '/'
    requires other == "" || other[0] == '/'
    requires x + rest == y + other
    ensures |y| <= |x|
  {
    assert rest != "" ==> (x + rest)[|x|] == '/';
    assert forall i :: 0 <= i < |y| ==> (y + other)[i] == y[i] != '/';
  }

  lemma {:induction false} JoinIsInjective(a: seq<string>, b: seq<string>)
    requires AllSlashFree(a) && AllSlashFree(b) && Join(a) == Join(b)
    ensures a == b
  {
    if a != [] && b != [] {
      var ra, rb := Join(a[1..]), Join(b[1..]);
      assert Join(a)[1..] == a[0] + ra && Join(b)[1..] == b[0] + rb;
      SegmentEnds(a[0], ra, b[0], rb);
      SegmentEnds(b[0], rb, a[0], ra);
      assert a[0] == (a[0] + ra)[..|a[0]|] == b[0];
      assert ra == (a[0] + ra)[|a[0]|..] == rb;
      JoinIsInjective(a[1..], b[1..]);
      assert a == [a[0]] + a[1..] && b == [b[0]] + b[1..];
    }
  }

  lemma {:induction false} DigitsAreSlashFree(n: nat)
    ensures SlashFree(Digits(n))
  {
    DigitsAreCanonical(n);
  }

  // ---- JSON pointer escaping (RFC 6901, section 3) ----

  function ReplaceAll(s: string, c: char, with: string): string {
    if s == "" then "" else (if s[0] == c then with else [s[0]]) + ReplaceAll(s[1..], c, with)
  }

  /** escapeJSONPointer, as the two replacements it makes. */
  function EscapePointer(s: string): string {
    ReplaceAll(ReplaceAll(s, '~', "~0"), '/', "~1")
  }

  lemma {:induction false} ReplaceAllSplits(a: string, b: string, c: char, with: string)
    ensures ReplaceAll(a + b, c, with) == ReplaceAll(a, c, with) + ReplaceAll(b, c, with)
  {
    if a == "" {
      assert a + b == b;
    } else {
      ReplaceAllSplits(a[1..], b, c, with);
      assert (a + b)[1..] == a[1..] + b;
    }
  }

  function EscapeChar(c: char): string {
    if c == '~' then "~0" else if c == '/' then "~1" else [c]
  }

  lemma EscapeStep(s: string)
    requires s != ""
    ensures EscapePointer(s) == EscapeChar(s[0]) + EscapePointer(s[1..])
  {
    var first := if s[0] == '~' then "~0" else [s[0]];
    ReplaceAllSplits(first, ReplaceAll(s[1..], '~', "~0"), '/', "~1");
    assert ReplaceAll(first, '/', "~1") == EscapeChar(s[0]) by {
      assert first[1..] == if s[0] == '~' then "0" else "";
      assert "0"[1..] == "";
    }
  }

  lemma {:induction false} EscapeIsSlashFree(s: string)
    ensures SlashFree(EscapePointer(s))
  {
    if s != "" {
      EscapeStep(s);
      EscapeIsSlashFree(s[1..]);
    }
  }

  lemma {:induction false} EscapeIsInjective(a: string, b: string)
    requires EscapePointer(a) == EscapePointer(b)
    ensures a == b
  {
    if a != "" { EscapeStep(a); }
    if b != "" { EscapeStep(b); }
    if a != "" && b != "" {
      var ea, eb := EscapePointer(a), EscapePointer(b);
      assert ea[0] == EscapeChar(a[0])[0] && eb[0] == EscapeChar(b[0])[0];
      if |EscapeChar(a[0])| == 2 {
        assert |ea| >= 2 && ea[1] == EscapeChar(a[0])[1];
        assert |EscapeChar(b[0])| == 2 && eb[1] == EscapeChar(b[0])[1];
      }
      assert a[0] == b[0];
      assert EscapePointer(a[1..]) == ea[|EscapeChar(a[0])|..] == EscapePointer(b[1..]);
      EscapeIsInjective(a[1..], b[1..]);
      assert a == [a[0]] + a[1..] && b == [b[0]] + b[1..];
    }
  }

  // ---- UTF-8 ----

  type byte = n: nat | n < 256

  function Utf8Char(c: char): (bytes: seq<byte>)
    ensures 1 <= |bytes| <= 4
  {
    var n := c as int;
    if n < 0x80 then [n]
    else if n < 0x800 then [0xC0 + n / 64, 0x80 + n % 64]
    else if n < 0x10000 then [0xE0 + n / 4096, 0x80 + n / 64 % 64, 0x80 + n % 64]
    else [0xF0 + n / 262144, 0x80 + n / 4096 % 64, 0x80 + n / 64 % 64, 0x80 + n % 64]
  }

  function Utf8(s: string): seq<byte> {
    if s == "" then [] else Utf8Char(s[0]) + Utf8(s[1..])
  }

  /** The value a character's bytes stand for. */
  function Utf8Value(b: seq<byte>): int {
    if |b| == 1 then b[0]
    else if |b| == 2 then (b[0] as int - 0xC0) * 64 + (b[1] as int - 0x80)
    else if |b| == 3 then (b[0] as int - 0xE0) * 4096 + (b[1] as int - 0x80) * 64 + (b[2] as int - 0x80)
    else if |b| == 4 then (b[0] as int - 0xF0) * 262144 + (b[1] as int - 0x80) * 4096 + (b[2] as int - 0x80) * 64 + (b[3] as int - 0x80)
    else 0
  }

  lemma Utf8ValueInverts(c: char)
    ensures Utf8Value(Utf8Char(c)) == c as int
  {
    var n := c as int;
    assert n / 4096 == n / 64 / 64;
    assert n / 262144 == n / 4096 / 64;
  }

  function Utf8Length(lead: byte): nat {
    if lead < 0x80 then 1 else if lead < 0xE0 then 2 else if lead < 0xF0 then 3 else 4
  }

  lemma LeadFixesLength(c: char)
    ensures |Utf8Char(c)| == Utf8Length(Utf8Char(c)[0])
  {
  }

  /** The leading byte fixes the length, so no character's bytes are a prefix of another's. */
  lemma Utf8CharIsPrefixFree(a: char, x: seq<byte>, b: char, y: seq<byte>)
    requires Utf8Char(a) + x == Utf8Char(b) + y
    ensures a == b && x == y
  {
    var ca, cb := Utf8Char(a), Utf8Char(b);
    var all := ca + x;
    assert all[0] == ca[0] && all == cb + y && all[0] == cb[0];
    LeadFixesLength(a);
    LeadFixesLength(b);
    assert ca == all[..|ca|] && cb == all[..|cb|];
    assert x == all[|ca|..] && y == all[|cb|..];
    Utf8ValueInverts(a);
    Utf8ValueInverts(b);
  }

  lemma {:induction false} Utf8IsInjective(a: string, b: string)
    requires Utf8(a) == Utf8(b)
    ensures a == b
  {
    if a != "" && b != "" {
      Utf8CharIsPrefixFree(a[0], Utf8(a[1..]), b[0], Utf8(b[1..]));
      Utf8IsInjective(a[1..], b[1..]);
      assert a == [a[0]] + a[1..] && b == [b[0]] + b[1..];
    }
  }

  // ---- base64url without padding ----

  type sextet = n: nat | n < 64

  function Alphabet(d: sextet): char {
    if d < 26 then 'A' + d as char
    else if d < 52 then 'a' + (d - 26) as char
    else if d < 62 then '0' + (d - 52) as char
    else if d == 62 then '-' else '_'
  }

  function Sextets(b: seq<byte>): seq<sextet> {
    if |b| == 0 then []
    else if |b| == 1 then [b[0] / 4, b[0] % 4 * 16]
    else if |b| == 2 then [b[0] / 4, b[0] % 4 * 16 + b[1] / 16, b[1] % 16 * 4]
    else [b[0] / 4, b[0] % 4 * 16 + b[1] / 16, b[1] % 16 * 4 + b[2] / 64, b[2] % 64] + Sextets(b[3..])
  }

  function Base64Url(b: seq<byte>): string {
    var s := Sextets(b);
    seq(|s|, i requires 0 <= i < |s| => Alphabet(s[i]))
  }

  lemma {:induction false} SextetsAreInjective(a: seq<byte>, b: seq<byte>)
    requires Sextets(a) == Sextets(b)
    ensures a == b
  {
    var s, t := Sextets(a), Sextets(b);
    if |a| >= 3 && |b| >= 3 {
      assert s[0] == t[0] && s[1] == t[1] && s[2] == t[2] && s[3] == t[3];
      assert a[0] == b[0] && a[1] == b[1] && a[2] == b[2];
      assert Sextets(a[3..]) == s[4..] == t[4..] == Sextets(b[3..]);
      SextetsAreInjective(a[3..], b[3..]);
      assert a == a[..3] + a[3..] && b == b[..3] + b[3..];
    } else {
      assert |a| == |b|;
      assert |a| >= 1 ==> s[0] == t[0] && s[1] == t[1];
      assert |a| == 2 ==> s[2] == t[2];
    }
  }

  function Id(path: string): string {
    Base64Url(Utf8(path))
  }

  lemma IdIsInjective(p: string, q: string)
    requires Id(p) == Id(q)
    ensures p == q
  {
    var s, t := Sextets(Utf8(p)), Sextets(Utf8(q));
    assert |s| == |Id(p)| == |t|;
    forall i | 0 <= i < |s| ensures s[i] == t[i] {
      assert Id(p)[i] == Alphabet(s[i]) && Id(q)[i] == Alphabet(t[i]);
    }
    SextetsAreInjective(Utf8(p), Utf8(q));
    Utf8IsInjective(p, q);
  }

  /** The ID of the node a path of segments leads to. */
  function PathId(segments: seq<string>): string {
    Id(Join(segments))
  }

  lemma PathIdIsInjective(a: seq<string>, b: seq<string>)
    requires AllSlashFree(a) && AllSlashFree(b) && PathId(a) == PathId(b)
    ensures a == b
  {
    IdIsInjective(Join(a), Join(b));
    JoinIsInjective(a, b);
  }

  /** No ID is blank. */
  lemma PathIdIsNotBlank(segments: seq<string>)
    requires segments != []
    ensures Trim(PathId(segments)) == PathId(segments) != ""
  {
    var sextets := Sextets(Utf8(Join(segments)));
    assert Join(segments)[0] == '/';
    assert |sextets| > 0;
    forall i | 0 <= i < |sextets| ensures !IsSpace(PathId(segments)[i]) {
      assert PathId(segments)[i] == Alphabet(sextets[i]);
    }
  }

  /** The first position from `from` on whose ID is `id`. */
  function Find(id: string, name: nat -> string, from: nat, count: nat): (r: Option<nat>)
    ensures r.Some? ==> from <= r.value < count && name(r.value) == id
    ensures r.Some? ==> forall j: nat :: from <= j < r.value ==> name(j) != id
    ensures r.None? ==> forall j: nat :: from <= j < count ==> name(j) != id
    decreases count - from
  {
    if from >= count then None
    else if name(from) == id then Some(from)
    else Find(id, name, from + 1, count)
  }
}
