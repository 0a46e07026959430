/** The parts of Go's `strings` package and of `fmt.Sprint` that the HTTP
    service relies on: prefix test, splitting on "/", and the decimal
    rendering of a status code used as a metric label. */
module Strings {

  /** `strings.HasPrefix(s, prefix)`. */
  predicate HasPrefix(s: string, prefix: string) {
    |prefix| <= |s| && s[..|prefix|] == prefix
  }

  /** Number of '/' characters in `s`. */
  function CountSlash(s: string): nat {
    if |s| == 0 then 0 else (if s[0] == '/' then 1 else 0) + CountSlash(s[1..])
  }

  /** `strings.Join(parts, "/")`. */
  function Join(parts: seq<string>): string
    requires |parts| >= 1
  {
    if |parts| == 1 then parts[0] else parts[0] + "/" + Join(parts[1..])
  }

  /** `strings.Split(s, "/")`: the maximal slash-free pieces between the
      slashes of `s`, so one more piece than there are slashes, and joining
      them back with "/" gives `s`. The empty string splits into [""]. */
  function Split(s: string): (parts: seq<string>)
    ensures |parts| == CountSlash(s) + 1
    ensures forall i :: 0 <= i < |parts| ==> '/' !in parts[i]
    ensures Join(parts) == s
  {
    if |s| == 0 then [""]
    else
      var rest := Split(s[1..]);
      if s[0] == '/' then
        assert ([""] + rest)[1..] == rest;
        [""] + rest
      else
        var head := [s[0]] + rest[0];
        assert s == head + s[|head|..];
        assert ([head] + rest[1..])[1..] == rest[1..];
        [head] + rest[1..]
  }

  /** Splitting a slash-free segment followed by "/" peels that segment off. */
  lemma {:induction false} SplitAfterSegment(p: string, tail: string)
    requires '/' !in p
    ensures Split(p + "/" + tail) == [p] + Split(tail)
    decreases |p|
  {
    if |p| == 0 {
      assert p + "/" + tail == "/" + tail;
      assert ("/" + tail)[1..] == tail;
    } else {
      assert (p + "/" + tail)[1..] == p[1..] + "/" + tail;
      SplitAfterSegment(p[1..], tail);
      assert [p[0]] + p[1..] == p;
    }
  }

  /** A slash-free string is a single piece. */
  lemma {:induction false} SplitSegment(p: string)
    requires '/' !in p
    ensures Split(p) == [p]
    decreases |p|
  {
    if |p| > 0 {
      SplitSegment(p[1..]);
      assert [p[0]] + p[1..] == p;
    }
  }

  /** Split inverts Join on slash-free pieces (Join inverts Split by
      Split's own contract). */
  lemma {:induction false} SplitJoin(parts: seq<string>)
    requires |parts| >= 1
    requires forall i :: 0 <= i < |parts| ==> '/' !in parts[i]
    ensures Split(Join(parts)) == parts
    decreases |parts|
  {
    if |parts| == 1 {
      SplitSegment(parts[0]);
    } else {
      SplitJoin(parts[1..]);
      SplitAfterSegment(parts[0], Join(parts[1..]));
      assert [parts[0]] + parts[1..] == parts;
    }
  }

  /** The character of the decimal digit `d`. */
  function Digit(d: nat): char
    requires d < 10
  {
    ('0' as int + d) as char
  }

  predicate IsDigits(s: string) {
    forall i :: 0 <= i < |s| ==> '0' <= s[i] <= '9'
  }

  /** The value of a string of decimal digits, most significant first. */
  function ParseDecimal(s: string): nat
    requires IsDigits(s)
  {
    if |s| == 0 then 0
    else 10 * ParseDecimal(s[..|s| - 1]) + (s[|s| - 1] as int - '0' as int)
  }

  /** `fmt.Sprint(n)` for a non-negative int: a non-empty digit string
      whose value is `n`, with no leading zero. */
  function Decimal(n: nat): (s: string)
    ensures 1 <= |s| && IsDigits(s)
    ensures ParseDecimal(s) == n
    ensures |s| > 1 ==> s[0] != '0'
    decreases n
  {
    if n < 10 then [Digit(n)]
    else
      var high := Decimal(n / 10);
      assert (high + [Digit(n % 10)])[..|high|] == high;
      high + [Digit(n % 10)]
  }

  /** The status labels the handlers emit. */
  lemma StatusLabels()
    ensures Decimal(400) == "400"
    ensures Decimal(405) == "405"
    ensures Decimal(500) == "500"
  {
  }
}
