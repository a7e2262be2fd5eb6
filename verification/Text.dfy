// Text handling shared by the model: splitting and joining on a separator
// character, and the decimal integers that travel in request headers.
module Text {

  datatype Option<+T> = None | Some(value: T)

  // ---------- Splitting and joining ----------

  // The pieces of `s` between occurrences of `sep`; never empty.
  function Split(s: string, sep: char): (parts: seq<string>)
    ensures |parts| > 0
  {
    if s == "" then [""]
    else
      var rest := Split(s[1..], sep);
      if s[0] == sep then [""] + rest
      else [[s[0]] + rest[0]] + rest[1..]
  }

  function Join(parts: seq<string>, sep: char): string
    requires |parts| > 0
  {
    if |parts| == 1 then parts[0] else parts[0] + [sep] + Join(parts[1..], sep)
  }

  // One step of Split, kept apart from its recursion.
  lemma SplitStep(s: string, sep: char)
    requires s != ""
    ensures s[0] == sep ==> Split(s, sep) == [""] + Split(s[1..], sep)
    ensures s[0] != sep ==> Split(s, sep) == [[s[0]] + Split(s[1..], sep)[0]] + Split(s[1..], sep)[1..]
  {
  }

  lemma PrependDistributes(c: char, left: seq<string>, right: seq<string>)
    requires |left| > 0
    ensures [""] + (left + right) == [""] + left + right
    ensures [[c] + (left + right)[0]] + (left + right)[1..] == [[c] + left[0]] + left[1..] + right
  {
  }

  // Splitting distributes over a separator written between two texts.
  lemma {:induction false} SplitConcat(a: string, b: string, sep: char)
    ensures Split(a + [sep] + b, sep) == Split(a, sep) + Split(b, sep)
  {
    if a == "" {
      assert a + [sep] + b == [sep] + b;
      assert ([sep] + b)[1..] == b;
    } else {
      SplitConcat(a[1..], b, sep);
      var whole := a + [sep] + b;
      assert whole[1..] == a[1..] + [sep] + b;
      SplitStep(whole, sep);
      SplitStep(a, sep);
      PrependDistributes(a[0], Split(a[1..], sep), Split(b, sep));
    }
  }

  lemma {:induction false} SplitFree(s: string, sep: char)
    requires sep !in s
    ensures Split(s, sep) == [s]
  {
    if s == "" {
    } else {
      SplitFree(s[1..], sep);
      assert [s[0]] + s[1..] == s;
    }
  }

  // Joining separator-free pieces loses nothing.
  lemma {:induction false} SplitJoin(parts: seq<string>, sep: char)
    requires |parts| > 0
    requires forall i :: 0 <= i < |parts| ==> sep !in parts[i]
    ensures Split(Join(parts, sep), sep) == parts
  {
    SplitFree(parts[0], sep);
    if |parts| <= 1 {
    } else {
      SplitConcat(parts[0], Join(parts[1..], sep), sep);
      SplitJoin(parts[1..], sep);
      assert [parts[0]] + parts[1..] == parts;
    }
  }

  // ---------- Decimal integers ----------

  const MAX_INT64 := 0x7fff_ffff_ffff_ffff
  const MIN_INT64 := -0x8000_0000_0000_0000

  predicate IsDigit(c: char) { '0' <= c <= '9' }

  predicate AllDigits(s: string) { forall i :: 0 <= i < |s| ==> IsDigit(s[i]) }

  function DigitValue(c: char): nat
    requires IsDigit(c)
  {
    c as int - '0' as int
  }

  function DigitsValue(s: string): nat
    requires AllDigits(s)
  {
    if s == "" then 0 else 10 * DigitsValue(s[..|s| - 1]) + DigitValue(s[|s| - 1])
  }

  function Digits(n: nat): string {
    (if n < 10 then "" else Digits(n / 10)) + [('0' as int + n % 10) as char]
  }

  // Decimal rendering of an integer.
  function FormatInt(n: int): string {
    if n < 0 then "-" + Digits(-n) else Digits(n)
  }

  // Base-10 parsing into a 64-bit integer: an optional sign, at least one
  // digit, nothing else, and a value that fits.
  function ParseInt(s: string): Option<int> {
    if s == "" then None
    else
      var signed := s[0] == '-' || s[0] == '+';
      var body := if signed then s[1..] else s;
      if body == "" || !AllDigits(body) then None
      else
        var magnitude: int := DigitsValue(body);
        var value := if s[0] == '-' then -magnitude else magnitude;
        if MIN_INT64 <= value <= MAX_INT64 then Some(value) else None
  }

  lemma {:induction false} DigitsRoundTrip(n: nat)
    ensures Digits(n) != "" && AllDigits(Digits(n)) && DigitsValue(Digits(n)) == n
  {
    var d := Digits(n);
    if n >= 10 {
      DigitsRoundTrip(n / 10);
      assert d[..|d| - 1] == Digits(n / 10);
    } else {
      assert d[..|d| - 1] == "";
    }
  }

  lemma ParseDigits(d: string)
    requires d != "" && AllDigits(d)
    ensures DigitsValue(d) <= MAX_INT64 ==> ParseInt(d) == Some(DigitsValue(d))
    ensures DigitsValue(d) <= MAX_INT64 + 1 ==> ParseInt("-" + d) == Some(0 - DigitsValue(d))
  {
  }

  // Parsing undoes formatting on every 64-bit integer.
  lemma ParseFormat(n: int)
    requires MIN_INT64 <= n <= MAX_INT64
    ensures ParseInt(FormatInt(n)) == Some(n)
  {
    var magnitude := if n < 0 then -n else n;
    DigitsRoundTrip(magnitude);
    ParseDigits(Digits(magnitude));
  }

  // Text that parses as an integer contains nothing but a sign and digits.
  lemma ParsedHasNoLineBreak(s: string)
    requires ParseInt(s).Some?
    ensures '\n' !in s && '\r' !in s
  {
  }
}
