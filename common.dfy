/** Shared vocabulary: optional values, the JavaScript notion of white space,
    `String.prototype.trim`, substring tests and decimal rendering of numbers. */
module Common {

  datatype Option<+T> = None | Some(value: T)

  /** JavaScript truthiness of an optional string: present and non-empty. */
  predicate Truthy(s: Option<string>)
  {
    s.Some? && s.value != ""
  }

  /** The characters that `\s` matches and `trim` removes in JavaScript
      (WhiteSpace and LineTerminator of ECMA-262). */
  predicate IsSpace(c: char)
  {
    var n := c as int;
    n == 0x09 || n == 0x0A || n == 0x0B || n == 0x0C || n == 0x0D || n == 0x20 ||
    n == 0xA0 || n == 0x1680 || (0x2000 <= n <= 0x200A) || n == 0x2028 || n == 0x2029 ||
    n == 0x202F || n == 0x205F || n == 0x3000 || n == 0xFEFF
  }

  /** No white space anywhere in `s`. */
  predicate NoSpace(s: string)
  {
    forall k :: 0 <= k < |s| ==> !IsSpace(s[k])
  }

  /** `s` neither starts nor ends with white space (the image of `trim`). */
  predicate Trimmed(s: string)
  {
    s == [] || (!IsSpace(s[0]) && !IsSpace(s[|s| - 1]))
  }

  function TrimStart(s: string): (r: string)
    ensures |r| <= |s|
    ensures r == [] || !IsSpace(r[0])
  {
    if s != [] && IsSpace(s[0]) then TrimStart(s[1..]) else s
  }

  function TrimEnd(s: string): (r: string)
    ensures |r| <= |s|
    ensures r == [] || !IsSpace(r[|r| - 1])
  {
    if s != [] && IsSpace(s[|s| - 1]) then TrimEnd(s[..|s| - 1]) else s
  }

  /** Trimming the end keeps the first character. */
  lemma {:induction false} TrimEndKeepsFirst(s: string)
    ensures TrimEnd(s) != [] ==> TrimEnd(s)[0] == s[0]
  {
    if s != [] && IsSpace(s[|s| - 1]) {
      TrimEndKeepsFirst(s[..|s| - 1]);
    }
  }

  /** `String.prototype.trim`. */
  function Trim(s: string): (r: string)
    ensures Trimmed(r)
  {
    TrimEndKeepsFirst(TrimStart(s));
    TrimEnd(TrimStart(s))
  }

  /** Every character of `s` is white space. */
  predicate AllSpace(s: string)
  {
    forall k :: 0 <= k < |s| ==> IsSpace(s[k])
  }

  /** `TrimStart` drops a prefix of white space. */
  lemma {:induction false} TrimStartIsSuffix(s: string)
    ensures TrimStart(s) == s[|s| - |TrimStart(s)|..]
    ensures AllSpace(s[..|s| - |TrimStart(s)|])
  {
    if s != [] && IsSpace(s[0]) {
      TrimStartIsSuffix(s[1..]);
      var a := |s[1..]| - |TrimStart(s[1..])|;
      assert s[1..][a..] == s[a + 1..];
      assert s[..a + 1] == [s[0]] + s[1..][..a];
    }
  }

  /** `TrimEnd` drops a suffix of white space. */
  lemma {:induction false} TrimEndIsPrefix(s: string)
    ensures TrimEnd(s) == s[..|TrimEnd(s)|]
    ensures AllSpace(s[|TrimEnd(s)|..])
  {
    if s != [] && IsSpace(s[|s| - 1]) {
      var t := s[..|s| - 1];
      TrimEndIsPrefix(t);
      var b := |TrimEnd(t)|;
      assert t[..b] == s[..b];
      assert s[b..] == t[b..] + [s[|s| - 1]];
    }
  }

  /** `trim` removes exactly the maximal leading and trailing white space:
      the result is a slice of `s` with only white space around it, and it
      neither starts nor ends with white space. */
  lemma TrimStripsSpace(s: string)
    ensures Trimmed(Trim(s))
    ensures exists a ::
              && 0 <= a <= |s| - |Trim(s)| && Trim(s) == s[a..a + |Trim(s)|]
              && AllSpace(s[..a]) && AllSpace(s[a + |Trim(s)|..])
  {
    var u := TrimStart(s);
    TrimStartIsSuffix(s);
    TrimEndIsPrefix(u);
    var a := |s| - |u|;
    var r := Trim(s);
    assert r == TrimEnd(u) == u[..|r|];
    assert u == s[a..];
    assert r == s[a..a + |r|];
    assert s[a + |r|..] == u[|r|..];
  }

  lemma TrimOfTrimmed(s: string)
    requires Trimmed(s)
    ensures Trim(s) == s
  {
  }

  lemma NoSpaceIsTrimmed(s: string)
    requires NoSpace(s)
    ensures Trimmed(s)
  {
  }

  /** `trim` of a trimmed, non-empty text followed by one more space. */
  lemma TrimDropsTrailingSpace(c: string)
    requires Trimmed(c) && c != []
    ensures Trim(c + " ") == c
  {
    var s := c + " ";
    assert TrimStart(s) == s;
    assert s[|s| - 1] == ' ' && IsSpace(' ');
    assert s[..|s| - 1] == c;
    assert TrimEnd(c) == c;
  }

  /** `trim` of a space followed by a trimmed text. */
  lemma TrimDropsLeadingSpace(w: string)
    requires Trimmed(w)
    ensures Trim(" " + w) == w
  {
    var s := " " + w;
    assert s[0] == ' ' && IsSpace(' ');
    assert s[1..] == w;
    assert TrimStart(w) == w;
    assert TrimEnd(w) == w;
  }

  /** `s.startsWith(p)`. */
  predicate StartsWith(s: string, p: string)
  {
    |p| <= |s| && s[..|p|] == p
  }

  /** `s.includes(sub)`. */
  predicate Contains(s: string, sub: string)
    decreases |s|
  {
    StartsWith(s, sub) || (s != [] && Contains(s[1..], sub))
  }

  /** `s.endsWith("}")` for the one suffix the source tests. */
  predicate EndsWithBrace(s: string)
  {
    s != [] && s[|s| - 1] == '}'
  }

  function DigitChar(d: nat): (c: char)
    requires d < 10
  {
    ('0' as int + d) as char
  }

  function DigitValue(c: char): nat
  {
    if '0' <= c <= '9' then (c as int - '0' as int) as nat else 0
  }

  /** `n.toString()` for a non-negative integer. */
  function Decimal(n: nat): (r: string)
    ensures 1 <= |r|
    ensures forall k :: 0 <= k < |r| ==> '0' <= r[k] <= '9'
  {
    if n < 10 then [DigitChar(n)] else Decimal(n / 10) + [DigitChar(n % 10)]
  }

  /** The value of a string of decimal digits (leading zeros allowed). */
  function DecimalValue(s: string): nat
  {
    if s == [] then 0 else DecimalValue(s[..|s| - 1]) * 10 + DigitValue(s[|s| - 1])
  }

  lemma {:induction false} DecimalRoundTrip(n: nat)
    ensures DecimalValue(Decimal(n)) == n
  {
    var r := Decimal(n);
    if n >= 10 {
      DecimalRoundTrip(n / 10);
      assert r[..|r| - 1] == Decimal(n / 10);
    }
  }

  lemma {:induction false} DecimalLength(n: nat)
    ensures |Decimal(n)| == 1 <==> n < 10
    ensures |Decimal(n)| == 2 <==> 10 <= n < 100
  {
    if n >= 10 {
      DecimalLength(n / 10);
    }
  }

  /** A leading zero does not change a decimal value. */
  lemma {:induction false} LeadingZero(s: string)
    ensures DecimalValue("0" + s) == DecimalValue(s)
    decreases |s|
  {
    if s != [] {
      var t := "0" + s;
      assert t[..|t| - 1] == "0" + s[..|s| - 1];
      LeadingZero(s[..|s| - 1]);
    }
  }
}
