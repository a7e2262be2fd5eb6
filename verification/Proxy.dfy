// Whose address a request counts against: the nearest hop that is not one of
// the trusted proxies.
module Proxy {
  import opened Text

  // The address tests are those of the platform's network library.
  datatype Network = Network(isAddress: string -> bool, isTrusted: string -> bool)

  // White space as Unicode defines it.
  predicate IsSpace(c: char) {
    var code := c as int;
    9 <= code <= 13 || 0x2000 <= code <= 0x200a
    || code in {0x20, 0x85, 0xa0, 0x1680, 0x2028, 0x2029, 0x202f, 0x205f, 0x3000}
  }

  function TrimSpace(s: string): string
    decreases |s|
  {
    if s == "" then ""
    else if IsSpace(s[0]) then TrimSpace(s[1..])
    else if IsSpace(s[|s| - 1]) then TrimSpace(s[..|s| - 1])
    else s
  }

  // ---------- Definition by the rightmost hop ----------

  // Whether the walk from the right ends inside the chain: at an entry that is
  // no address, or at an address that is not trusted.
  predicate Stops(n: Network, chain: seq<string>)
    decreases |chain|
  {
    chain != [] &&
    var hop := TrimSpace(chain[|chain| - 1]);
    !n.isAddress(hop) || !n.isTrusted(hop) || Stops(n, chain[..|chain| - 1])
  }

  // The first untrusted address from the right, or else the last good hop.
  function Walk(n: Network, chain: seq<string>, host: string): string
    decreases |chain|
  {
    if chain == [] then host
    else
      var hop := TrimSpace(chain[|chain| - 1]);
      if !n.isAddress(hop) then host
      else if !n.isTrusted(hop) then hop
      else Walk(n, chain[..|chain| - 1], hop)
  }

  function Client(n: Network, remote: string, header: string): string {
    if !n.isTrusted(remote) then remote else Walk(n, Split(header, ','), remote)
  }

  method ClientIP(n: Network, remote: string, header: string) returns (host: string)
    ensures host == Client(n, remote, header)
  {
    host := remote;
    if !n.isTrusted(host) {
      return;
    }
    var chain := Split(header, ',');
    var i := |chain| - 1;
    assert chain[..|chain|] == chain;
    while i >= 0
      invariant -1 <= i < |chain|
      invariant Walk(n, chain[..i + 1], host) == Walk(n, chain, remote)
    {
      assert chain[..i + 1][..i] == chain[..i];
      var candidate := TrimSpace(chain[i]);
      if !n.isAddress(candidate) {
        return;
      }
      host := candidate;
      if !n.isTrusted(host) {
        return;
      }
      i := i - 1;
    }
  }

  // ---------- What can and cannot be forged ----------

  // Hops further left matter only if the walk gets past all those on the right.
  lemma {:induction false} WalkConcat(n: Network, left: seq<string>, right: seq<string>, host: string)
    ensures Walk(n, left + right, host)
         == if Stops(n, right) then Walk(n, right, host) else Walk(n, left, Walk(n, right, host))
    decreases |right|
  {
    if right == [] {
      assert left + right == left;
    } else {
      var both := left + right;
      assert both[|both| - 1] == right[|right| - 1];
      assert both[..|both| - 1] == left + right[..|right| - 1];
      var hop := TrimSpace(right[|right| - 1]);
      if n.isAddress(hop) && n.isTrusted(hop) {
        WalkConcat(n, left, right[..|right| - 1], hop);
      }
    }
  }

  // Text prepended to the header, with a comma between, is read only when every
  // hop already there is a trusted address; otherwise it changes nothing.
  lemma SuffixDetermined(n: Network, remote: string, header: string, prefix: string)
    ensures Client(n, remote, prefix + "," + header)
         == if n.isTrusted(remote) && !Stops(n, Split(header, ','))
            then Client(n, Client(n, remote, header), prefix)
            else Client(n, remote, header)
  {
    if n.isTrusted(remote) {
      SplitConcat(prefix, header, ',');
      assert prefix + "," + header == prefix + [','] + header;
      WalkConcat(n, Split(prefix, ','), Split(header, ','), remote);
      if !Stops(n, Split(header, ',')) {
        TrustedThroughout(n, Split(header, ','), remote);
      }
    }
  }

  lemma {:induction false} TrustedThroughout(n: Network, chain: seq<string>, host: string)
    requires n.isTrusted(host) && !Stops(n, chain)
    ensures n.isTrusted(Walk(n, chain, host))
    decreases |chain|
  {
    if chain == [] {
    } else {
      TrustedThroughout(n, chain[..|chain| - 1], TrimSpace(chain[|chain| - 1]));
    }
  }

  // The answer is the peer itself or an address named in the header, and an
  // untrusted answer is the rightmost untrusted one.
  lemma {:induction false} WalkFindsRightmost(n: Network, chain: seq<string>, host: string)
    requires n.isTrusted(host)
    ensures var r := Walk(n, chain, host);
            !n.isTrusted(r) ==>
              exists i :: && 0 <= i < |chain| && r == TrimSpace(chain[i]) && n.isAddress(r)
                          && forall j :: i < j < |chain| ==>
                               n.isAddress(TrimSpace(chain[j])) && n.isTrusted(TrimSpace(chain[j]))
    decreases |chain|
  {
    if chain == [] {
    } else {
      var hop := TrimSpace(chain[|chain| - 1]);
      var before := chain[..|chain| - 1];
      if n.isAddress(hop) {
        if n.isTrusted(hop) {
          WalkFindsRightmost(n, before, hop);
          var r := Walk(n, chain, host);
          if !n.isTrusted(r) {
            var i :| && 0 <= i < |before| && r == TrimSpace(before[i]) && n.isAddress(r)
                     && forall j :: i < j < |before| ==>
                          n.isAddress(TrimSpace(before[j])) && n.isTrusted(TrimSpace(before[j]));
            assert r == TrimSpace(chain[i]);
            forall j | i < j < |chain| ensures n.isAddress(TrimSpace(chain[j])) && n.isTrusted(TrimSpace(chain[j])) {
              if j < |before| {
                assert chain[j] == before[j];
              }
            }
          }
        } else {
          assert hop == TrimSpace(chain[|chain| - 1]);
        }
      }
    }
  }
}
