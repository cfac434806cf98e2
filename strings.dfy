/**
 * The pieces of Go's standard library the core leans on, over `seq<char>`:
 * decimal rendering (`%d`, `strconv.Itoa`), `strconv.Atoi` on a 64-bit
 * platform, `%.2f` / `%f` of an amount held in integer cents, and
 * `strings.Split` on a one-character separator.
 */
module Strings {
  import opened GoTypes

  const MinInt64: int := -0x8000_0000_0000_0000
  const MaxInt64: int := 0x7FFF_FFFF_FFFF_FFFF

  predicate IsDigit(c: char)
  {
    '0' <= c <= '9'
  }

  predicate AllDigits(s: string)
  {
    forall i :: 0 <= i < |s| ==> IsDigit(s[i])
  }

  function DigitChar(d: nat): (c: char)
    requires d < 10
    ensures IsDigit(c) && c as int - '0' as int == d
  {
    ['0', '1', '2', '3', '4', '5', '6', '7', '8', '9'][d]
  }

  /** Decimal digits of `n`, without leading zeros. */
  function NatToDecimal(n: nat): (s: string)
    ensures |s| > 0 && AllDigits(s)
    ensures s[0] != '0' || n == 0
  {
    if n < 10 then [DigitChar(n)] else NatToDecimal(n / 10) + [DigitChar(n % 10)]
  }

  /** `fmt.Sprintf("%d", n)` and `strconv.Itoa(n)`. */
  function IntToDecimal(n: int): string
  {
    if n < 0 then "-" + NatToDecimal(-n) else NatToDecimal(n)
  }

  /** The value of a string of decimal digits. */
  function DigitsValue(s: string): nat
    requires AllDigits(s)
  {
    if |s| == 0 then 0 else DigitsValue(s[..|s| - 1]) * 10 + (s[|s| - 1] as int - '0' as int)
  }

  /** `strconv.Atoi` with a 64-bit `int`: an optional sign, at least one ASCII
      digit and nothing else, and a value that fits; `None` is the error. */
  function Atoi(s: string): (r: Option<int>)
    ensures r.Some? ==> MinInt64 <= r.value <= MaxInt64
    ensures r.Some? ==> |s| > 0 && IsDigit(s[|s| - 1])
  {
    if |s| == 0 then None
    else
      var neg := s[0] == '-';
      var digits := if s[0] == '-' || s[0] == '+' then s[1..] else s;
      if |digits| == 0 || !AllDigits(digits) then None
      else
        var m: int := DigitsValue(digits);
        var v := if neg then -m else m;
        if MinInt64 <= v <= MaxInt64 then Some(v) else None
  }

  lemma {:induction false} DigitsValueOfDecimal(n: nat)
    ensures DigitsValue(NatToDecimal(n)) == n
  {
    if n >= 10 {
      var s := NatToDecimal(n);
      var p := NatToDecimal(n / 10);
      assert s == p + [DigitChar(n % 10)];
      assert s[..|s| - 1] == p;
      DigitsValueOfDecimal(n / 10);
    }
  }

  /** Atoi reads back every 64-bit integer that Itoa renders. */
  lemma AtoiOfDecimal(n: int)
    requires MinInt64 <= n <= MaxInt64
    ensures Atoi(IntToDecimal(n)) == Some(n)
  {
    var s := IntToDecimal(n);
    if n < 0 {
      var d := NatToDecimal(-n);
      assert s == "-" + d && s[0] == '-' && s[1..] == d;
      DigitsValueOfDecimal(-n);
    } else {
      var d := NatToDecimal(n);
      assert s == d && IsDigit(s[0]);
      DigitsValueOfDecimal(n);
    }
  }

  /** Atoi rejects text that is not an optionally signed run of digits. */
  lemma AtoiRejects()
    ensures Atoi("") == None && Atoi("-") == None && Atoi("+") == None
    ensures Atoi("1O") == None && Atoi(" 1") == None
  {
    assert !AllDigits("1O") by { assert !IsDigit("1O"[1]); }
    assert !AllDigits(" 1") by { assert !IsDigit(" 1"[0]); }
  }

  /** An amount in integer cents as `%.2f`, followed by `zeros` more zero
      digits: `%.2f` is `zeros == 0`, `%f` (six places) is `zeros == 4`. */
  function CentsFixed(cents: int, zeros: nat): (s: string)
  {
    var a := Abs(cents);
    (if cents < 0 then "-" else "")
      + NatToDecimal(a / 100) + "." + [DigitChar(a % 100 / 10), DigitChar(a % 10)]
      + seq(zeros, _ => '0')
  }

  lemma CentsFixedExamples()
    ensures CentsFixed(12345, 0) == "123.45"
    ensures CentsFixed(-5, 0) == "-0.05"
    ensures CentsFixed(8000, 4) == "80.000000"
  {
    assert NatToDecimal(123) == "123" by {
      assert NatToDecimal(12) == "12";
    }
  }

  /** Number of occurrences of `c` in `s`. */
  function Count(s: string, c: char): nat
  {
    if |s| == 0 then 0 else (if s[0] == c then 1 else 0) + Count(s[1..], c)
  }

  /** `strings.Split(s, string(sep))`: every occurrence of `sep` separates two
      pieces, so empty pieces are kept and nothing is trimmed. */
  function Split(s: string, sep: char): (parts: seq<string>)
    ensures |parts| > 0
  {
    if |s| == 0 then [""]
    else
      var rest := Split(s[1..], sep);
      if s[0] == sep then [""] + rest else [[s[0]] + rest[0]] + rest[1..]
  }

  /** `strings.Join(parts, string(sep))`. */
  function Join(parts: seq<string>, sep: char): string
    requires |parts| > 0
  {
    if |parts| == 1 then parts[0] else parts[0] + [sep] + Join(parts[1..], sep)
  }

  /** Joining the pieces gives the original text back. */
  lemma {:induction false} JoinSplit(s: string, sep: char)
    ensures Join(Split(s, sep), sep) == s
  {
    if |s| > 0 {
      var rest := Split(s[1..], sep);
      JoinSplit(s[1..], sep);
      if s[0] == sep {
        assert Split(s, sep)[1..] == rest;
      } else {
        var parts := Split(s, sep);
        if |rest| == 1 {
          assert parts == [[s[0]] + rest[0]];
        } else {
          assert parts[1..] == rest[1..];
          assert Join(rest, sep) == rest[0] + [sep] + Join(rest[1..], sep);
        }
      }
    }
  }

  /** One more piece than there are separators, and no piece holds one. */
  lemma {:induction false} SplitShape(s: string, sep: char)
    ensures |Split(s, sep)| == Count(s, sep) + 1
    ensures forall i :: 0 <= i < |Split(s, sep)| ==> sep !in Split(s, sep)[i]
  {
    if |s| > 0 {
      SplitShape(s[1..], sep);
      var rest := Split(s[1..], sep);
      var parts := Split(s, sep);
      if s[0] != sep {
        forall i | 0 <= i < |parts| ensures sep !in parts[i] {
          if i == 0 {
            assert parts[0] == [s[0]] + rest[0];
          } else {
            assert parts[i] == rest[i];
          }
        }
      }
    }
  }

  lemma SplitExample()
    ensures Split("a,,b", ',') == ["a", "", "b"]
  {
    assert "b"[1..] == "" && ",b"[1..] == "b" && ",,b"[1..] == ",b" && "a,,b"[1..] == ",,b";
    assert Split("", ',') == [""];
    assert ['b'] + "" == "b";
    assert Split("b", ',') == [['b'] + ""] + [""][1..];
    assert Split("b", ',') == ["b"];
    assert Split(",b", ',') == ["", "b"];
    assert Split(",,b", ',') == ["", "", "b"];
    assert ['a'] + "" == "a";
    assert Split("a,,b", ',') == [['a'] + ""] + ["", "b"];
  }
}
