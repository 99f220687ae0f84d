/** The string helpers the provisioner uses: joining and decimal formatting. */
module Strings {

  /** strings.Join: the elements separated by `sep`. */
  function JoinWith(sep: string, elems: seq<string>): string
    decreases |elems|
  {
    if |elems| == 0 then ""
    else if |elems| == 1 then elems[0]
    else elems[0] + sep + JoinWith(sep, elems[1..])
  }

  /** The elements of `elems` that are not empty, in order. */
  function NonEmpty(elems: seq<string>): seq<string>
    decreases |elems|
  {
    if |elems| == 0 then []
    else if elems[0] == "" then NonEmpty(elems[1..])
    else [elems[0]] + NonEmpty(elems[1..])
  }

  /** filepath.Join without its final Clean: the non-empty elements joined by "/". */
  function PathJoin(elems: seq<string>): string {
    JoinWith("/", NonEmpty(elems))
  }

  /** Joining two elements puts the separator between them. */
  lemma JoinTwo(sep: string, a: string, b: string)
    ensures JoinWith(sep, [a, b]) == a + sep + b
  {
    assert [a, b][1..] == [b];
  }

  /** With three non-empty elements the path is `a/b/c`. */
  lemma PathJoinThree(a: string, b: string, c: string)
    requires a != "" && b != "" && c != ""
    ensures PathJoin([a, b, c]) == a + "/" + b + "/" + c
  {
    assert [c][1..] == [];
    assert NonEmpty([c]) == [c];
    assert [b, c][1..] == [c];
    assert NonEmpty([b, c]) == [b, c];
    assert [a, b, c][1..] == [b, c];
    assert NonEmpty([a, b, c]) == [a, b, c];
    assert JoinWith("/", [c]) == c;
    assert JoinWith("/", [b, c]) == b + "/" + c;
  }

  function DigitChar(d: nat): char
    requires d < 10
  {
    ('0' as int + d) as char
  }

  /** The decimal digits of `n`, most significant first. */
  function NatToDecimal(n: nat): string
    decreases n
  {
    if n < 10 then [DigitChar(n)] else NatToDecimal(n / 10) + [DigitChar(n % 10)]
  }

  /** strconv.FormatInt(n, 10), which is also what `%v` prints for an int. */
  function FormatInt(n: int): string {
    if n < 0 then "-" + NatToDecimal(-n) else NatToDecimal(n)
  }

  function DigitValue(c: char): nat {
    if '0' <= c <= '9' then c as int - '0' as int else 0
  }

  /** Reads a string of decimal digits back as a number. */
  function ParseNat(s: string): nat
    decreases |s|
  {
    if s == [] then 0 else ParseNat(s[..|s| - 1]) * 10 + DigitValue(s[|s| - 1])
  }

  /** Reads a decimal integer with an optional leading minus sign. */
  function ParseInt(s: string): int {
    if |s| > 0 && s[0] == '-' then -(ParseNat(s[1..]) as int) else ParseNat(s)
  }

  /** The digits of `n` are non-empty, start with a digit and read back as `n`. */
  lemma {:induction false} NatToDecimalRoundTrip(n: nat)
    ensures |NatToDecimal(n)| > 0 && '0' <= NatToDecimal(n)[0] <= '9'
    ensures ParseNat(NatToDecimal(n)) == n
    decreases n
  {
    if n >= 10 {
      NatToDecimalRoundTrip(n / 10);
      var s := NatToDecimal(n / 10) + [DigitChar(n % 10)];
      assert s[..|s| - 1] == NatToDecimal(n / 10);
    }
  }

  /** FormatInt and ParseInt are inverse: a formatted number reads back unchanged. */
  lemma FormatIntRoundTrip(n: int)
    ensures ParseInt(FormatInt(n)) == n
  {
    if n < 0 {
      NatToDecimalRoundTrip(-n);
      assert ("-" + NatToDecimal(-n))[1..] == NatToDecimal(-n);
    } else {
      NatToDecimalRoundTrip(n);
    }
  }
}
