/** The two pieces of JavaScript string behaviour the client relies on:
    `Array.prototype.join(",")` over field names and `String(n)` for an
    integral number. Each comes with the inverse that reads it back. */
module Strings {

  /** `xs.join(",")`: the elements separated by commas; `[]` joins to "". */
  function Join(xs: seq<string>): (s: string)
    ensures |xs| >= 1 ==> |s| >= |xs[0]| && s[..|xs[0]|] == xs[0]
    ensures |xs| >= 2 ==> |s| > |xs[0]| && s[|xs[0]|] == ','
  {
    if |xs| == 0 then ""
    else if |xs| == 1 then xs[0]
    else xs[0] + "," + Join(xs[1..])
  }

  /** `s.split(",")`: the pieces between commas; "" splits to `[""]`. */
  function Split(s: string): (parts: seq<string>)
    ensures |parts| >= 1
  {
    if s == [] then [""]
    else if s[0] == ',' then [""] + Split(s[1..])
    else
      var rest := Split(s[1..]);
      [[s[0]] + rest[0]] + rest[1..]
  }

  predicate NoComma(x: string) {
    ',' !in x
  }

  lemma {:induction false} SplitNoComma(x: string)
    requires NoComma(x)
    ensures Split(x) == [x]
  {
    if x != [] {
      SplitNoComma(x[1..]);
      assert [x[0]] + x[1..] == x;
    }
  }

  lemma {:induction false} SplitAtComma(x: string, rest: string)
    requires NoComma(x)
    ensures Split(x + "," + rest) == [x] + Split(rest)
  {
    var s := x + "," + rest;
    if x == [] {
      assert s[1..] == rest;
    } else {
      assert s[1..] == x[1..] + "," + rest;
      SplitAtComma(x[1..], rest);
      assert [x[0]] + x[1..] == x;
    }
  }

  /** Splitting a join gives back the pieces, as long as there is at least one
      piece and none of them holds a comma. */
  lemma {:induction false} SplitJoin(xs: seq<string>)
    requires |xs| >= 1
    requires forall i :: 0 <= i < |xs| ==> NoComma(xs[i])
    ensures Split(Join(xs)) == xs
  {
    if |xs| == 1 {
      SplitNoComma(xs[0]);
    } else {
      SplitAtComma(xs[0], Join(xs[1..]));
      SplitJoin(xs[1..]);
    }
  }

  /** Joining two non-empty lists puts one comma between their joins. */
  lemma {:induction false} JoinAppend(xs: seq<string>, ys: seq<string>)
    requires |xs| >= 1 && |ys| >= 1
    ensures Join(xs + ys) == Join(xs) + "," + Join(ys)
  {
    if |xs| == 1 {
      assert (xs + ys)[1..] == ys;
    } else {
      assert (xs + ys)[1..] == xs[1..] + ys;
      JoinAppend(xs[1..], ys);
    }
  }

  /** A join of non-empty pieces is empty exactly when there are no pieces. */
  lemma {:induction false} JoinEmpty(xs: seq<string>)
    requires forall i :: 0 <= i < |xs| ==> xs[i] != ""
    ensures Join(xs) == "" <==> xs == []
  {
    if |xs| >= 2 {
      assert |Join(xs)| >= |xs[0]| + 1;
    }
  }

  predicate IsDigit(c: char) {
    '0' <= c <= '9'
  }

  function DigitChar(d: nat): (c: char)
    requires d < 10
    ensures IsDigit(c)
  {
    ('0' as int + d) as char
  }

  function DigitValue(c: char): int {
    c as int - '0' as int
  }

  /** The decimal rendering of a natural number: no sign, no leading zero. */
  function NatToDecimal(n: nat): (s: string)
    ensures |s| >= 1
    ensures forall i :: 0 <= i < |s| ==> IsDigit(s[i])
    ensures |s| > 1 ==> s[0] != '0'
  {
    if n < 10 then [DigitChar(n)]
    else NatToDecimal(n / 10) + [DigitChar(n % 10)]
  }

  /** `String(n)` for an integral number: a minus sign before negatives. */
  function IntToDecimal(n: int): (s: string)
    ensures |s| >= 1
    ensures s[0] == '-' <==> n < 0
    ensures forall i :: 0 <= i < |s| ==> IsDigit(s[i]) || (i == 0 && s[i] == '-')
  {
    if n < 0 then "-" + NatToDecimal(-n) else NatToDecimal(n)
  }

  /** The two defaults the client writes into queries. */
  lemma DefaultDecimals()
    ensures IntToDecimal(0) == "0" && IntToDecimal(100) == "100"
  {
  }

  /** The text of a number holds only digits and a sign: no separator. */
  lemma IntToDecimalHasNo(n: int, c: char)
    requires !IsDigit(c) && c != '-'
    ensures c !in IntToDecimal(n)
  {
    var s := IntToDecimal(n);
    forall i | 0 <= i < |s| ensures s[i] != c {
    }
  }

  /** Reads a run of decimal digits, last digit least significant. */
  function ParseNat(s: string): int {
    if s == [] then 0
    else 10 * ParseNat(s[..|s| - 1]) + DigitValue(s[|s| - 1])
  }

  /** Reads an optionally negative decimal integer. */
  function ParseInt(s: string): int {
    if |s| > 0 && s[0] == '-' then -ParseNat(s[1..]) else ParseNat(s)
  }

  lemma {:induction false} NatToDecimalParses(n: nat)
    ensures ParseNat(NatToDecimal(n)) == n
  {
    if n >= 10 {
      var s := NatToDecimal(n);
      assert s[..|s| - 1] == NatToDecimal(n / 10);
      NatToDecimalParses(n / 10);
    }
  }

  /** `String(n)` loses nothing: the number can be read back. */
  lemma IntToDecimalParses(n: int)
    ensures ParseInt(IntToDecimal(n)) == n
  {
    if n < 0 {
      assert ("-" + NatToDecimal(-n))[1..] == NatToDecimal(-n);
      NatToDecimalParses(-n);
    } else {
      NatToDecimalParses(n);
    }
  }

  /** Distinct numbers render as distinct strings. */
  lemma IntToDecimalInjective(m: int, n: int)
    ensures IntToDecimal(m) == IntToDecimal(n) ==> m == n
  {
    IntToDecimalParses(m);
    IntToDecimalParses(n);
  }

  /** The part of `s` before the first `c` (all of `s` when it has none). */
  function TakeUntil(s: string, c: char): (p: string)
    ensures |p| <= |s| && p == s[..|p|]
    ensures c !in p
  {
    if s == [] || s[0] == c then [] else [s[0]] + TakeUntil(s[1..], c)
  }

  /** The part of `s` from the first `c` on. */
  function DropUntil(s: string, c: char): (rest: string)
    ensures s == TakeUntil(s, c) + rest
  {
    s[|TakeUntil(s, c)|..]
  }

  /** Cutting at the first `c` splits `x + [c] + y` back into its parts
      when `x` holds no `c`. */
  lemma {:induction false} TakeUntilConcat(x: string, c: char, y: string)
    requires c !in x
    ensures TakeUntil(x + [c] + y, c) == x
    ensures DropUntil(x + [c] + y, c) == [c] + y
  {
    var s := x + [c] + y;
    if x != [] {
      assert s[1..] == x[1..] + [c] + y;
      TakeUntilConcat(x[1..], c, y);
      assert [x[0]] + x[1..] == x;
    }
  }

  /** A number followed by a separator that is neither a digit nor a sign
      reads back: cutting at the separator gives the number's text, then
      the separator and everything after it. */
  lemma NumberBeforeSeparator(n: int, sep: char, rest: string)
    requires !IsDigit(sep) && sep != '-'
    ensures ParseInt(TakeUntil(IntToDecimal(n) + [sep] + rest, sep)) == n
    ensures DropUntil(IntToDecimal(n) + [sep] + rest, sep) == [sep] + rest
  {
    IntToDecimalHasNo(n, sep);
    TakeUntilConcat(IntToDecimal(n), sep, rest);
    IntToDecimalParses(n);
  }
}
