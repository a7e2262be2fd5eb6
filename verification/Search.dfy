// Searching devices by a typed text: the text is escaped into a LIKE pattern.
module Search {
  import opened Schema

  // LIKE ignores the case of ASCII letters only.
  function Fold(c: char): char {
    if 'A' <= c <= 'Z' then (c as int + 32) as char else c
  }

  // SQL LIKE with backslash as the escape character: % matches any text, _ any
  // one character, an escaped character itself.
  predicate Like(pattern: string, s: string)
    decreases |pattern| + |s|
  {
    if pattern == "" then s == ""
    else if pattern[0] == '%' then Like(pattern[1..], s) || (s != "" && Like(pattern, s[1..]))
    else if pattern[0] == '\\' then
      |pattern| > 1 && s != "" && Fold(pattern[1]) == Fold(s[0]) && Like(pattern[2..], s[1..])
    else s != "" && (pattern[0] == '_' || Fold(pattern[0]) == Fold(s[0])) && Like(pattern[1..], s[1..])
  }

  function EscapedChar(c: char): string {
    if c in {'\\', '%', '_'} then ['\\', c] else [c]
  }

  function Escape(q: string): string {
    if q == "" then "" else EscapedChar(q[0]) + Escape(q[1..])
  }

  function Pattern(q: string): string { "%" + Escape(q) + "%" }

  // ---------- What the typed text means ----------

  predicate SameText(a: string, b: string) {
    |a| == |b| && forall i :: 0 <= i < |a| ==> Fold(a[i]) == Fold(b[i])
  }

  predicate StartsWith(s: string, q: string) { |q| <= |s| && SameText(q, s[..|q|]) }

  predicate Contains(s: string, q: string) {
    exists k :: 0 <= k <= |s| && StartsWith(s[k..], q)
  }

  // ---------- Proofs ----------

  lemma {:induction false} PercentMatchesAll(s: string)
    ensures Like("%", s)
  {
    if s == "" {
    } else {
      PercentMatchesAll(s[1..]);
    }
  }

  lemma StartsWithStep(s: string, q: string)
    requires q != ""
    ensures StartsWith(s, q) <==> s != "" && Fold(q[0]) == Fold(s[0]) && StartsWith(s[1..], q[1..])
  {
  }

  // An escaped text followed by % matches what starts with the text.
  lemma {:induction false} EscapedPrefix(q: string, s: string)
    ensures Like(Escape(q) + "%", s) <==> StartsWith(s, q)
    decreases |q|
  {
    var p := Escape(q) + "%";
    if q == "" {
      assert p == "%";
      PercentMatchesAll(s);
    } else {
      var rest := Escape(q[1..]) + "%";
      assert p == EscapedChar(q[0]) + rest;
      assert p[|EscapedChar(q[0])|..] == rest;
      StartsWithStep(s, q);
      if s != "" {
        EscapedPrefix(q[1..], s[1..]);
      }
    }
  }

  // A leading % matches whatever the rest matches at some position.
  lemma {:induction false} LeadingPercent(p: string, s: string)
    ensures Like("%" + p, s) <==> exists k :: 0 <= k <= |s| && Like(p, s[k..])
    decreases |s|
  {
    var w := "%" + p;
    assert w[0] == '%' && w[1..] == p;
    assert s[0..] == s;
    if s != "" {
      LeadingPercent(p, s[1..]);
      forall k | 0 <= k <= |s| - 1 ensures s[1..][k..] == s[k + 1..] {
      }
      if k :| 0 <= k <= |s| && Like(p, s[k..]) {
        if k > 0 {
          assert s[1..][k - 1..] == s[k..];
          assert 0 <= k - 1 <= |s[1..]| && Like(p, s[1..][k - 1..]);
        }
      }
      if Like(w, s) && !Like(p, s) {
        var k :| 0 <= k <= |s[1..]| && Like(p, s[1..][k..]);
        assert Like(p, s[k + 1..]);
      }
    } else if k :| 0 <= k <= |s| && Like(p, s[k..]) {
      assert k == 0;
    }
  }

  // The escaped pattern finds exactly the texts that contain the typed text, up
  // to the case of ASCII letters, whatever characters it is made of.
  lemma SearchIsSubstring(q: string, s: string)
    ensures Like(Pattern(q), s) <==> Contains(s, q)
  {
    var p := Escape(q) + "%";
    assert Pattern(q) == "%" + p;
    LeadingPercent(p, s);
    forall k | 0 <= k <= |s| ensures Like(p, s[k..]) <==> StartsWith(s[k..], q) {
      EscapedPrefix(q, s[k..]);
    }
  }

  // The search condition of the device list; an empty search lists everything.
  predicate Found(d: Device, search: string) {
    search == "" || Like(Pattern(search), d.info.rustdeskId) || Like(Pattern(search), d.info.hostname)
  }

  lemma FoundByIdOrHostname(d: Device, search: string)
    ensures Found(d, search) <==> Contains(d.info.rustdeskId, search) || Contains(d.info.hostname, search)
  {
    SearchIsSubstring(search, d.info.rustdeskId);
    SearchIsSubstring(search, d.info.hostname);
    if search == "" {
      assert StartsWith(d.info.hostname[0..], search);
    }
  }
}
