/**
 * `fmt.Sprintf(format)` called with no operands: literal text is copied, `%%`
 * prints `%`, and every other directive prints Go's error text for a missing
 * operand. Flags, `[n]` argument indexes, `*` and decimal widths and
 * precisions are parsed exactly as fmt's doPrintf parses them, because they
 * decide where the verb is.
 */
module GoFmt {
  import opened GoTypes
  import opened Strings

  /** fmt's parsenum: consume decimal digits from `i`, giving up (and jumping
      to `end`) once the value read so far exceeds 10^6. */
  function ParseNum(s: string, i: nat, end: nat, num: nat, isNum: bool): (r: (bool, nat))
    requires i <= end <= |s|
    ensures i <= r.1 <= end
    ensures r.0 ==> isNum || r.1 > i
    decreases end - i
  {
    if i < end && IsDigit(s[i]) then
      if num > 1000000 then (false, end)
      else ParseNum(s, i + 1, end, num * 10 + (s[i] as int - '0' as int), true)
    else (isNum, i)
  }

  /** Index of the first ']' at or after `j`, or |s|. */
  function CloseBracket(s: string, j: nat): (k: nat)
    requires j <= |s|
    ensures j <= k <= |s|
    ensures k < |s| ==> s[k] == ']'
    ensures forall m :: j <= m < k ==> s[m] != ']'
    decreases |s| - j
  {
    if j == |s| || s[j] == ']' then j else CloseBracket(s, j + 1)
  }

  /** fmt's argNumber when there are no operands: a `[` at `i` starts an
      argument index, which is always out of range. Gives the position after
      it, whether it parsed as `[digits]`, and whether an index was seen. */
  function ArgNumber(s: string, i: nat): (r: (nat, bool, bool))
    requires i <= |s|
    ensures i <= r.0 <= |s|
    ensures r.2 <==> i < |s| && s[i] == '['
    ensures r.2 ==> r.0 > i
  {
    if i >= |s| || s[i] != '[' then (i, false, false)
    else if |s| - i < 3 then (i + 1, false, true)
    else
      var k := CloseBracket(s, i + 1);
      if k == |s| then (i + 1, false, true)
      else
        var p := ParseNum(s, i + 1, k, 0, false);
        (k + 1, p.0 && p.1 == k, true)
  }

  predicate IsFlag(c: char)
  {
    c == '#' || c == '0' || c == '+' || c == '-' || c == ' '
  }

  function SkipFlags(s: string, i: nat): (j: nat)
    requires i <= |s|
    ensures i <= j <= |s|
    decreases |s| - i
  {
    if i < |s| && IsFlag(s[i]) then SkipFlags(s, i + 1) else i
  }

  /** One directive whose `%` is just before `i`: the text it prints and the
      position after it; `next == None` when the format ended before a verb,
      which stops the formatting. */
  datatype Directive = Directive(text: string, next: Option<nat>)

  function FormatDirective(s: string, i: nat): (d: Directive)
    requires i <= |s|
    ensures d.next.Some? ==> i < d.next.value <= |s|
  {
    var i1 := SkipFlags(s, i);
    var a1 := ArgNumber(s, i1);
    var (i2, after2, bad2) := (a1.0, a1.1, a1.2);
    // width
    var (i3, after3, out3) :=
      if i2 < |s| && s[i2] == '*' then (i2 + 1, false, "%!(BADWIDTH)")
      else (ParseNum(s, i2, |s|, 0, false).1, after2, "");
    // precision
    var (i4, after4, bad4, out4) :=
      if i3 + 1 < |s| && s[i3] == '.' then
        var a2 := ArgNumber(s, i3 + 1);
        if a2.0 < |s| && s[a2.0] == '*' then (a2.0 + 1, false, a2.2, "%!(BADPREC)")
        else (ParseNum(s, a2.0, |s|, 0, false).1, a2.1, a2.2, "")
      else (i3, after3, false, "");
    var a3 := if after4 then (i4, true, false) else ArgNumber(s, i4);
    var i5 := a3.0;
    var bad := bad2 || bad4 || a3.2;
    if i5 >= |s| then Directive(out3 + out4 + "%!(NOVERB)", None)
    else
      var verb := s[i5];
      var text :=
        if verb == '%' then "%"
        else if bad then "%!" + [verb] + "(BADINDEX)"
        else "%!" + [verb] + "(MISSING)";
      Directive(out3 + out4 + text, Some(i5 + 1))
  }

  function FormatFrom(s: string, i: nat): string
    requires i <= |s|
    decreases |s| - i
  {
    if i == |s| then ""
    else if s[i] != '%' then [s[i]] + FormatFrom(s, i + 1)
    else
      var d := FormatDirective(s, i + 1);
      if d.next.None? then d.text else d.text + FormatFrom(s, d.next.value)
  }

  /** `fmt.Sprintf(format)` with no operands. */
  function SprintfNoArgs(format: string): string
  {
    FormatFrom(format, 0)
  }

  lemma {:induction false} FormatFromPlain(s: string, i: nat)
    requires i <= |s|
    requires '%' !in s[i..]
    ensures FormatFrom(s, i) == s[i..]
    decreases |s| - i
  {
    if i < |s| {
      assert s[i..] == [s[i]] + s[i + 1..];
      FormatFromPlain(s, i + 1);
    }
  }

  /** A format without `%` prints itself. */
  lemma SprintfPlain(format: string)
    requires '%' !in format
    ensures SprintfNoArgs(format) == format
  {
    assert format[0..] == format;
    FormatFromPlain(format, 0);
  }

  /** The format is copied unchanged up to its first `%`. */
  lemma {:induction false} FormatFromPrefix(prefix: string, rest: string, i: nat)
    requires i <= |prefix|
    requires '%' !in prefix
    ensures FormatFrom(prefix + rest, i) == prefix[i..] + FormatFrom(prefix + rest, |prefix|)
    decreases |prefix| - i
  {
    if i < |prefix| {
      var s := prefix + rest;
      assert s[i] == prefix[i];
      FormatFromPrefix(prefix, rest, i + 1);
      assert prefix[i..] == [prefix[i]] + prefix[i + 1..];
    }
  }
}
