// Random tokens: unpadded URL-safe Base64 (section 5 of RFC 4648) of random
// bytes.  Managed passwords are the tokens made of 24 bytes.
module Tokens {

  newtype byte = x: int | 0 <= x < 256

  // The random bytes behind one managed password.
  type Seed = s: seq<byte> | |s| == 24 witness seq(24, i => 0)

  predicate UrlSafe(c: char) {
    'a' <= c <= 'z' || 'A' <= c <= 'Z' || '0' <= c <= '9' || c == '-' || c == '_'
  }

  predicate AllUrlSafe(s: string) { forall i :: 0 <= i < |s| ==> UrlSafe(s[i]) }

  // The length and alphabet that the client demands of a managed password.
  predicate ManagedPassword(p: string) { 24 <= |p| <= 128 && AllUrlSafe(p) }

  function Symbol(n: nat): (c: char)
    requires n < 64
    ensures UrlSafe(c)
  {
    if n < 26 then ('A' as int + n) as char
    else if n < 52 then ('a' as int + n - 26) as char
    else if n < 62 then ('0' as int + n - 52) as char
    else if n == 62 then '-'
    else '_'
  }

  lemma SymbolInjective(m: nat, n: nat)
    requires m < 64 && n < 64 && Symbol(m) == Symbol(n)
    ensures m == n
  {
  }

  // The six-bit fields of up to three bytes, missing bytes read as zero.
  function Fields(b: seq<byte>): (f: seq<nat>)
    requires 1 <= |b| <= 3
    ensures |f| == |b| + 1 && forall i :: 0 <= i < |f| ==> f[i] < 64
  {
    var b0 := b[0] as int;
    var b1 := if |b| > 1 then b[1] as int else 0;
    var b2 := if |b| > 2 then b[2] as int else 0;
    [b0 / 4, b0 % 4 * 16 + b1 / 16, b1 % 16 * 4 + b2 / 64, b2 % 64][..|b| + 1]
  }

  function Group(b: seq<byte>): (s: string)
    requires 1 <= |b| <= 3
    ensures |s| == |b| + 1 && AllUrlSafe(s)
  {
    var f := Fields(b);
    seq(|f|, i requires 0 <= i < |f| => Symbol(f[i]))
  }

  function Encode(b: seq<byte>): (s: string)
    ensures AllUrlSafe(s)
  {
    if b == [] then ""
    else if |b| <= 3 then Group(b)
    else Group(b[..3]) + Encode(b[3..])
  }

  // Every three bytes become four characters, the remainder one more than its length.
  lemma {:induction false} EncodedLength(b: seq<byte>)
    ensures |Encode(b)| == |b| / 3 * 4 + (if |b| % 3 == 0 then 0 else |b| % 3 + 1)
  {
    if |b| <= 3 {
    } else {
      EncodedLength(b[3..]);
    }
  }

  // A byte is determined by its quotient and remainder at each cut.
  lemma CutInjective(x: nat, y: nat, cut: nat)
    requires cut in {4, 16, 64} && x / cut == y / cut && x % cut == y % cut
    ensures x == y
  {
  }

  // A field that straddles a byte boundary determines both of its halves.
  lemma FieldInjective(hi: nat, lo: nat, hi': nat, lo': nat, width: nat)
    requires width in {4, 16} && lo < width && lo' < width
    requires hi * width + lo == hi' * width + lo'
    ensures hi == hi' && lo == lo'
  {
  }

  // Equal groups have equal fields.
  lemma GroupFields(a: seq<byte>, b: seq<byte>)
    requires 1 <= |a| == |b| <= 3 && Group(a) == Group(b)
    ensures Fields(a) == Fields(b)
  {
    var f, g := Fields(a), Fields(b);
    forall i | 0 <= i < |f| ensures f[i] == g[i] {
      assert Group(a)[i] == Group(b)[i];
      SymbolInjective(f[i], g[i]);
    }
  }

  lemma GroupInjective(a: seq<byte>, b: seq<byte>)
    requires 1 <= |a| == |b| <= 3 && Group(a) == Group(b)
    ensures a == b
  {
    var a0, b0 := a[0] as int, b[0] as int;
    var a1, b1 := if |a| > 1 then a[1] as int else 0, if |b| > 1 then b[1] as int else 0;
    var a2, b2 := if |a| > 2 then a[2] as int else 0, if |b| > 2 then b[2] as int else 0;
    GroupFields(a, b);
    var f, g := Fields(a), Fields(b);
    assert f[0] == g[0] && f[1] == g[1];
    FieldInjective(a0 % 4, a1 / 16, b0 % 4, b1 / 16, 16);
    CutInjective(a0, b0, 4);
    if |a| > 1 {
      assert f[2] == g[2];
      FieldInjective(a1 % 16, a2 / 64, b1 % 16, b2 / 64, 4);
      CutInjective(a1, b1, 16);
    }
    if |a| > 2 {
      assert f[3] == g[3];
      CutInjective(a2, b2, 64);
    }
  }

  // Different random bytes always give different tokens.
  lemma {:induction false} EncodeInjective(a: seq<byte>, b: seq<byte>)
    requires |a| == |b| && Encode(a) == Encode(b)
    ensures a == b
  {
    if a == [] {
    } else if |a| <= 3 {
      GroupInjective(a, b);
    } else {
      var s, t := Group(a[..3]), Group(b[..3]);
      assert s == Encode(a)[..4] == Encode(b)[..4] == t;
      GroupInjective(a[..3], b[..3]);
      assert Encode(a[3..]) == Encode(a)[4..] == Encode(b)[4..] == Encode(b[3..]);
      EncodeInjective(a[3..], b[3..]);
      assert a == a[..3] + a[3..];
      assert b == b[..3] + b[3..];
    }
  }

  // A token made of 24 random bytes is a password the client accepts.
  lemma TokenIsManagedPassword(seed: Seed)
    ensures |Encode(seed)| == 32 && ManagedPassword(Encode(seed))
  {
    EncodedLength(seed);
  }
}
