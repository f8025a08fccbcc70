/** String helpers shared by the modules; a string is a sequence of Unicode scalar values. */
module Text {
  import opened Values

  predicate StartsWith(s: string, prefix: string) {
    |prefix| <= |s| && s[..|prefix|] == prefix
  }

  /** `s.indexOf(c)`, with `None` for -1. */
  function IndexOf(s: string, c: char): (r: Option<nat>)
    ensures r.None? <==> c !in s
    ensures r.Some? ==> r.value < |s| && s[r.value] == c && c !in s[..r.value]
  {
    if |s| == 0 then None
    else if s[0] == c then Some(0)
    else
      match IndexOf(s[1..], c)
      case None => None
      case Some(i) =>
        assert s[..i + 1] == [s[0]] + s[1..][..i];
        Some(i + 1)
  }

  /** The text before and the text after the first `c` in `s`. */
  function SplitAtFirst(s: string, c: char): (r: (string, string))
    requires c in s
    ensures s == r.0 + [c] + r.1
    ensures c !in r.0
  {
    var i := IndexOf(s, c).value;
    assert s == s[..i] + [c] + s[i + 1..];
    (s[..i], s[i + 1..])
  }

  /** A string built as `before + [c] + after` with no `c` in `before` splits back into its parts. */
  lemma SplitAtFirstOfJoin(before: string, c: char, after: string)
    requires c !in before
    ensures c in before + [c] + after
    ensures SplitAtFirst(before + [c] + after, c) == (before, after)
  {
    var s := before + [c] + after;
    assert s[|before|] == c;
    var r := SplitAtFirst(s, c);
    assert r.0 == s[..|before|] == before;
    assert r.1 == s[|before| + 1..] == after;
  }

  /** The longest prefix of `s` that does not contain `c`. */
  function TakeUntil(s: string, c: char): (r: string)
    ensures c !in r
    ensures StartsWith(s, r)
    ensures |r| == |s| || s[|r|] == c
  {
    match IndexOf(s, c)
    case None => s
    case Some(i) => s[..i]
  }

  /** Lower-cases the ASCII letters A-Z and leaves every other character alone. */
  function LowerAscii(c: char): (r: char)
    ensures 'A' <= c <= 'Z' ==> 'a' <= r <= 'z'
    ensures !('A' <= c <= 'Z') ==> r == c
  {
    if 'A' <= c <= 'Z' then (c as int + 32) as char else c
  }

  /** `s.toLowerCase()` restricted to ASCII letters. */
  function ToLowerAscii(s: string): (r: string)
    ensures |r| == |s|
    ensures forall i :: 0 <= i < |s| ==> r[i] == LowerAscii(s[i])
  {
    if |s| == 0 then "" else [LowerAscii(s[0])] + ToLowerAscii(s[1..])
  }

  /** Concatenation regrouped to the right. */
  lemma ConcatAssociates(a: string, b: string, c: string)
    ensures a + b + c == a + (b + c)
  {
  }

  /** The chunks of a stream written one after the other. */
  function Concat(chunks: seq<string>): string {
    if |chunks| == 0 then "" else chunks[0] + Concat(chunks[1..])
  }

  /** Decimal digits of a natural number, as `String(n)` writes them. */
  function NatToDecimal(n: nat): (r: string)
    ensures |r| > 0
    decreases n
  {
    var d := ['0', '1', '2', '3', '4', '5', '6', '7', '8', '9'][n % 10];
    if n < 10 then [d] else NatToDecimal(n / 10) + [d]
  }

  /** `String(n)` is all decimal digits. */
  lemma {:induction false} DecimalIsDigits(n: nat)
    ensures forall i :: 0 <= i < |NatToDecimal(n)| ==> '0' <= NatToDecimal(n)[i] <= '9'
    decreases n
  {
    if n >= 10 {
      DecimalIsDigits(n / 10);
    }
  }
}
