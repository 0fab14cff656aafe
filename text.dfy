/** Python string operations the crawler relies on: `in`, `str.split`, `str.join` and `str(int)`. */
module Text {
  import opened Outcomes

  /** `sub` occurs in `s` starting at index `i`. */
  predicate OccursAt(s: string, sub: string, i: int) {
    0 <= i && i + |sub| <= |s| && s[i..i + |sub|] == sub
  }

  /** Python's `sub in s`. */
  predicate HasSubstring(s: string, sub: string) {
    exists i | 0 <= i <= |s| :: OccursAt(s, sub, i)
  }

  /** Python's `s.find(sub, i)`: the first occurrence of `sub` at or after `i`. */
  function IndexFrom(s: string, sub: string, i: nat): (r: Option<nat>)
    requires i <= |s|
    ensures r.Some? ==> i <= r.value && OccursAt(s, sub, r.value)
    ensures r.Some? ==> forall j :: i <= j < r.value ==> !OccursAt(s, sub, j)
    ensures r.None? ==> forall j :: i <= j ==> !OccursAt(s, sub, j)
    decreases |s| - i
  {
    if i + |sub| > |s| then None
    else if s[i..i + |sub|] == sub then Some(i)
    else IndexFrom(s, sub, i + 1)
  }

  /** Python's `sep.join(parts)`. */
  function Join(parts: seq<string>, sep: string): string
    decreases |parts|
  {
    if |parts| == 0 then ""
    else if |parts| == 1 then parts[0]
    else parts[0] + sep + Join(parts[1..], sep)
  }

  /** A prefix that ends before the first occurrence of `sub` does not contain `sub`. */
  lemma {:induction false} PrefixBeforeFirst(s: string, sub: string, i: nat)
    requires i <= |s|
    requires forall j :: 0 <= j < i ==> !OccursAt(s, sub, j)
    requires |sub| > 0
    ensures !HasSubstring(s[..i], sub)
  {
    if HasSubstring(s[..i], sub) {
      var t := s[..i];
      var j :| 0 <= j <= |t| && OccursAt(t, sub, j);
      assert 0 <= j && j + |sub| <= i;
      assert t[j..j + |sub|] == s[j..j + |sub|];
      assert OccursAt(s, sub, j);
    }
  }

  /** Python's `s.split(sep)` for a non-empty separator (Python raises ValueError for an empty one). */
  function Split(s: string, sep: string): (parts: seq<string>)
    requires |sep| > 0
    ensures |parts| >= 1
    ensures Join(parts, sep) == s
    ensures forall k :: 0 <= k < |parts| ==> !HasSubstring(parts[k], sep)
    ensures HasSubstring(s, sep) <==> |parts| >= 2
    decreases |s|
  {
    match IndexFrom(s, sep, 0)
    case None =>
      assert !HasSubstring(s, sep);
      [s]
    case Some(i) =>
      PrefixBeforeFirst(s, sep, i);
      var rest := Split(s[i + |sep|..], sep);
      var parts := [s[..i]] + rest;
      assert parts[1..] == rest;
      assert s == s[..i] + sep + s[i + |sep|..];
      parts
  }

  /** The first piece of a split is everything before the first occurrence of the separator. */
  lemma SplitHead(s: string, sep: string)
    requires |sep| > 0
    ensures IndexFrom(s, sep, 0).None? ==> Split(s, sep)[0] == s
    ensures IndexFrom(s, sep, 0).Some? ==> Split(s, sep)[0] == s[..IndexFrom(s, sep, 0).value]
  {
  }

  /** The first piece is a prefix of `s` ending at the end of `s` or where `sep` first occurs. */
  lemma SplitHeadShape(s: string, sep: string)
    requires |sep| > 0
    ensures var h := Split(s, sep)[0];
      && |h| <= |s| && s[..|h|] == h && (|h| == |s| || OccursAt(s, sep, |h|))
      && (forall j :: 0 <= j < |h| ==> !OccursAt(s, sep, j))
  {
    SplitHead(s, sep);
  }

  /** A one-character separator that occurs nowhere before `n` means the character is not there. */
  lemma NoCharBefore(s: string, c: char, n: nat)
    requires n <= |s|
    requires forall j :: 0 <= j < n ==> !OccursAt(s, [c], j)
    ensures forall j :: 0 <= j < n ==> s[j] != c
  {
    forall j | 0 <= j < n
      ensures s[j] != c
    {
      assert !OccursAt(s, [c], j);
      assert s[j..j + 1] == [s[j]];
    }
  }

  /** After the first piece, the split goes on in what follows the first separator. */
  lemma SplitTail(s: string, sep: string)
    requires |sep| > 0 && HasSubstring(s, sep)
    ensures IndexFrom(s, sep, 0).Some?
    ensures Split(s, sep)[1..] == Split(s[IndexFrom(s, sep, 0).value + |sep|..], sep)
    ensures Split(s, sep)[1] == Split(s[IndexFrom(s, sep, 0).value + |sep|..], sep)[0]
  {
    var parts := Split(s, sep);
    assert parts[1..][0] == parts[1];
  }

  /** A prefix of a string without `sub` is without `sub`. */
  lemma PrefixKeepsAbsence(s: string, n: nat, sub: string)
    requires n <= |s| && !HasSubstring(s, sub)
    ensures !HasSubstring(s[..n], sub)
  {
    forall j | 0 <= j <= n
      ensures !OccursAt(s[..n], sub, j)
    {
      OccursInPrefix(s, n, sub, j);
    }
  }

  /** An occurrence inside a prefix is an occurrence in the whole string. */
  lemma OccursInPrefix(s: string, n: nat, sub: string, j: int)
    requires n <= |s|
    ensures OccursAt(s[..n], sub, j) ==> OccursAt(s, sub, j)
  {
    if OccursAt(s[..n], sub, j) {
      assert s[..n][j..j + |sub|] == s[j..j + |sub|];
    }
  }

  function Digit(d: nat): char
    requires d < 10
  {
    "0123456789"[d]
  }

  /** `str(n)` for a natural number: its decimal digits, most significant first. */
  function NatText(n: nat): string
    decreases n
  {
    if n < 10 then [Digit(n)] else NatText(n / 10) + [Digit(n % 10)]
  }

  /** `str(i)` for a Python int. */
  function IntText(i: int): string {
    if i < 0 then "-" + NatText(-i) else NatText(i)
  }

  /** The value of a string of decimal digits: the partner of NatText. */
  function DecimalValue(s: string): int
    decreases |s|
  {
    if |s| == 0 then 0 else DecimalValue(s[..|s| - 1]) * 10 + DigitValue(s[|s| - 1])
  }

  function DigitValue(c: char): int {
    c as int - '0' as int
  }

  /** `str(n)` is a non-empty run of decimal digits that reads back as `n`. */
  lemma {:induction false} DecimalRoundTrip(n: nat)
    ensures |NatText(n)| >= 1
    ensures forall k :: 0 <= k < |NatText(n)| ==> '0' <= NatText(n)[k] <= '9'
    ensures DecimalValue(NatText(n)) == n
    decreases n
  {
    if n >= 10 {
      var q, d := n / 10, n % 10;
      DecimalRoundTrip(q);
      var t := NatText(n);
      assert t == NatText(q) + [Digit(d)];
      assert t[..|t| - 1] == NatText(q);
      assert DigitValue(Digit(d)) == d;
      assert DecimalValue(t) == q * 10 + d;
    } else {
      assert DigitValue(Digit(n)) == n;
    }
  }
}
