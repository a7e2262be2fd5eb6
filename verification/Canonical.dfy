// The bytes that are signed.  Server and client build them independently.
module Canonical {
  import opened Text
  import opened Tokens
  import opened Messages

  const LF := '\n'

  // The digest of a body, fixed at 32 bytes.
  type Digest = d: seq<byte> | |d| == 32 witness seq(32, i => 0)

  function HexDigit(n: nat): (c: char)
    requires n < 16
    ensures LowerHex(c)
  {
    if n < 10 then ('0' as int + n) as char else ('a' as int + n - 10) as char
  }

  function Hex(b: seq<byte>): string {
    if b == [] then "" else [HexDigit(b[0] as int / 16), HexDigit(b[0] as int % 16)] + Hex(b[1..])
  }

  lemma {:induction false} HexHasNoLineFeed(b: seq<byte>)
    ensures LF !in Hex(b)
  {
    if b == [] {
    } else {
      HexHasNoLineFeed(b[1..]);
      assert LF !in [HexDigit(b[0] as int / 16), HexDigit(b[0] as int % 16)];
    }
  }

  lemma HexDigitInjective(m: nat, n: nat)
    requires m < 16 && n < 16 && HexDigit(m) == HexDigit(n)
    ensures m == n
  {
  }

  lemma {:induction false} HexInjective(a: seq<byte>, b: seq<byte>)
    requires |a| == |b| && Hex(a) == Hex(b)
    ensures a == b
  {
    if a == [] {
    } else {
      var s, t := Hex(a), Hex(b);
      assert s[0] == t[0] && s[1] == t[1] && s[2..] == Hex(a[1..]) && t[2..] == Hex(b[1..]);
      var x, y := a[0] as int, b[0] as int;
      HexDigitInjective(x / 16, y / 16);
      HexDigitInjective(x % 16, y % 16);
      assert x == x / 16 * 16 + x % 16 && y == y / 16 * 16 + y % 16;
      HexInjective(a[1..], b[1..]);
      assert a == [a[0]] + a[1..] && b == [b[0]] + b[1..];
    }
  }

  // ---------- The two builders ----------

  function Fields(verb: string, path: string, stamp: string, nonce: string, digest: Digest): seq<string> {
    [verb, path, stamp, nonce, Hex(digest)]
  }

  // The server joins a list of fields.
  function ServerBytes(verb: string, path: string, stamp: string, nonce: string, digest: Digest): string {
    Join(Fields(verb, path, stamp, nonce, digest), LF)
  }

  // The client fills a format with four line feeds.
  function ClientBytes(verb: string, path: string, stamp: string, nonce: string, digest: Digest): string {
    verb + "\n" + path + "\n" + stamp + "\n" + nonce + "\n" + Hex(digest)
  }

  lemma SameBytes(verb: string, path: string, stamp: string, nonce: string, digest: Digest)
    ensures ServerBytes(verb, path, stamp, nonce, digest) == ClientBytes(verb, path, stamp, nonce, digest)
  {
    var f := Fields(verb, path, stamp, nonce, digest);
    assert f[1..] == [path, stamp, nonce, Hex(digest)];
    assert f[1..][1..] == [stamp, nonce, Hex(digest)];
    assert f[1..][1..][1..] == [nonce, Hex(digest)];
    assert f[1..][1..][1..][1..] == [Hex(digest)];
    assert Join([nonce, Hex(digest)], LF) == nonce + "\n" + Hex(digest);
    assert Join([stamp, nonce, Hex(digest)], LF) == stamp + "\n" + (nonce + "\n" + Hex(digest));
    assert Join([path, stamp, nonce, Hex(digest)], LF) == path + "\n" + (stamp + "\n" + (nonce + "\n" + Hex(digest)));
  }

  // ---------- Reading the bytes back ----------

  predicate LineFeedFree(verb: string, path: string, stamp: string, nonce: string) {
    LF !in verb && LF !in path && LF !in stamp && LF !in nonce
  }

  lemma {:induction false} PiecesAreFree(s: string, sep: char)
    ensures forall i :: 0 <= i < |Split(s, sep)| ==> sep !in Split(s, sep)[i]
  {
    if s == "" {
    } else {
      PiecesAreFree(s[1..], sep);
      SplitStep(s, sep);
    }
  }

  // The signed bytes split back into exactly the signed fields if and only if
  // no field contains a line feed.
  lemma SplitsBack(verb: string, path: string, stamp: string, nonce: string, digest: Digest)
    ensures Split(ServerBytes(verb, path, stamp, nonce, digest), LF) == Fields(verb, path, stamp, nonce, digest)
       <==> LineFeedFree(verb, path, stamp, nonce)
  {
    var f := Fields(verb, path, stamp, nonce, digest);
    HexHasNoLineFeed(digest);
    if LineFeedFree(verb, path, stamp, nonce) {
      SplitJoin(f, LF);
    } else {
      PiecesAreFree(ServerBytes(verb, path, stamp, nonce, digest), LF);
      assert f[0] == verb && f[1] == path && f[2] == stamp && f[3] == nonce;
    }
  }

  // ---------- Signed messages ----------

  ghost function BytesOf(m: Message, hash: Body -> Digest): string {
    ServerBytes(m.verb, m.path, m.stamp, m.nonce, hash(m.body))
  }

  // What the server checks before it looks at the signature.
  predicate Checked(m: Message) {
    LF !in m.verb && LF !in m.path && ParseInt(m.stamp).Some? && GoodNonce(m.nonce)
  }

  // Checked messages have the same signed bytes exactly when they agree on the
  // four fields and on the digest of the body, whatever the digest is.
  lemma BytesIdentifyFields(m: Message, n: Message, hash: Body -> Digest)
    requires Checked(m) && Checked(n)
    ensures BytesOf(m, hash) == BytesOf(n, hash)
       <==> m.verb == n.verb && m.path == n.path && m.stamp == n.stamp && m.nonce == n.nonce
            && hash(m.body) == hash(n.body)
  {
    if BytesOf(m, hash) == BytesOf(n, hash) {
      ParsedHasNoLineBreak(m.stamp);
      ParsedHasNoLineBreak(n.stamp);
      SplitsBack(m.verb, m.path, m.stamp, m.nonce, hash(m.body));
      SplitsBack(n.verb, n.path, n.stamp, n.nonce, hash(n.body));
      var f := Fields(m.verb, m.path, m.stamp, m.nonce, hash(m.body));
      var g := Fields(n.verb, n.path, n.stamp, n.nonce, hash(n.body));
      assert f == g;
      assert f[0] == g[0] && f[1] == g[1] && f[2] == g[2] && f[3] == g[3] && f[4] == g[4];
      HexInjective(hash(m.body), hash(n.body));
    }
  }

  // Hence two different checked messages share their signed bytes only if
  // their bodies are a collision of the digest.
  lemma BytesIdentifyMessages(m: Message, n: Message, hash: Body -> Digest)
    requires Checked(m) && Checked(n)
    ensures BytesOf(m, hash) == BytesOf(n, hash) && m != n
       <==> m.body != n.body && n == m.(body := n.body) && hash(m.body) == hash(n.body)
  {
    BytesIdentifyFields(m, n, hash);
  }
}
