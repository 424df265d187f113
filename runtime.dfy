/** The few pieces of Python semantics the application relies on: exceptions
    as error values, ASCII case mapping of byte strings, `str.split` on one
    separator character and `int()` on a decimal string. */
module PyRuntime {

  /** The exceptions the modelled code can raise. */
  datatype PyError =
    | KeyError
    | ValueError
    | IndexError
    | AttributeError
    | AssertionError
    | NoSectionError
    | NoOptionError
    | DuplicateSectionError
    | TypeError

  datatype Option<+T> = None | Some(value: T)

  /** The outcome of a Python call: a value, or the exception it raises. */
  datatype Result<+T> = Ok(value: T) | Err(error: PyError)

  // ---------------------------------------------------------------------
  // ASCII case mapping (Python 2 `str.lower`, `str.upper`)

  predicate IsUpper(c: char) { 'A' <= c <= 'Z' }
  predicate IsLower(c: char) { 'a' <= c <= 'z' }

  function Lower(c: char): (r: char)
    ensures !IsUpper(r)
    ensures IsUpper(c) ==> IsLower(r)
    ensures !IsUpper(c) ==> r == c
  {
    if IsUpper(c) then (c as int + 32) as char else c
  }

  function Upper(c: char): (r: char)
    ensures !IsLower(r)
    ensures IsLower(c) ==> IsUpper(r)
    ensures !IsLower(c) ==> r == c
  {
    if IsLower(c) then (c as int - 32) as char else c
  }

  function LowerStr(s: string): (r: string)
    ensures |r| == |s|
    ensures forall i :: 0 <= i < |s| ==> r[i] == Lower(s[i])
  {
    seq(|s|, i requires 0 <= i < |s| => Lower(s[i]))
  }

  // ---------------------------------------------------------------------
  // `str.split(sep)` and its inverse `sep.join(parts)`

  /** Number of occurrences of `c` in `s`. */
  function Count(s: string, c: char): nat
  {
    if s == [] then 0 else (if s[0] == c then 1 else 0) + Count(s[1..], c)
  }

  function Join(parts: seq<string>, sep: char): string
    requires |parts| > 0
  {
    if |parts| == 1 then parts[0] else parts[0] + [sep] + Join(parts[1..], sep)
  }

  /** Python's `s.split(sep)` for a one-character separator: the pieces
      between separators, always at least one (`"".split(",") == [""]`). */
  function Split(s: string, sep: char): (parts: seq<string>)
    ensures |parts| == Count(s, sep) + 1
    ensures forall i :: 0 <= i < |parts| ==> sep !in parts[i]
    ensures Join(parts, sep) == s
  {
    if s == [] then [""]
    else
      var rest := Split(s[1..], sep);
      assert s == [s[0]] + s[1..];
      if s[0] == sep then
        [""] + rest
      else
        assert Join(rest, sep) == s[1..];
        var parts := [[s[0]] + rest[0]] + rest[1..];
        assert parts[1..] == rest[1..];
        assert Join(parts, sep) == s by {
          if |rest| > 1 {
            assert Join(rest, sep) == rest[0] + [sep] + Join(rest[1..], sep);
          }
        }
        parts
  }

  lemma {:induction false} SplitTwo(a: string, b: string, sep: char)
    requires sep !in a && sep !in b
    ensures Split(a + [sep] + b, sep) == [a, b]
  {
    if a == [] {
      assert [] + [sep] + b == [sep] + b;
      assert ([sep] + b)[1..] == b;
      SplitNone(b, sep);
    } else {
      assert (a + [sep] + b)[1..] == a[1..] + [sep] + b;
      SplitTwo(a[1..], b, sep);
      assert [a[0]] + a[1..] == a;
    }
  }

  lemma {:induction false} SplitNone(s: string, sep: char)
    requires sep !in s
    ensures Split(s, sep) == [s]
  {
    if s != [] {
      assert sep !in s[1..];
      SplitNone(s[1..], sep);
      assert [s[0]] + s[1..] == s;
    }
  }

  // ---------------------------------------------------------------------
  // `int(s)` on a Python 2 byte string: surrounding whitespace, an optional
  // sign followed by optional whitespace, and one or more decimal digits;
  // anything else raises ValueError.

  predicate IsSpace(c: char) { c == ' ' || c == '\t' || c == '\n' || c == '\r' || c == '\U{000B}' || c == '\U{000C}' }
  predicate IsDigit(c: char) { '0' <= c <= '9' }

  /** `s.lstrip()`: `s` without its leading whitespace. */
  function StripLeft(s: string): string
  {
    if s != [] && IsSpace(s[0]) then StripLeft(s[1..]) else s
  }

  /** `s.rstrip()`: `s` without its trailing whitespace. */
  function StripRight(s: string): string
  {
    if s != [] && IsSpace(s[|s| - 1]) then StripRight(s[..|s| - 1]) else s
  }

  /** Value of a non-empty string of decimal digits, most significant first. */
  function DigitsValue(s: string): nat
    requires forall i :: 0 <= i < |s| ==> IsDigit(s[i])
  {
    if s == [] then 0
    else
      assert IsDigit(s[|s| - 1]);
      DigitsValue(s[..|s| - 1]) * 10 + (s[|s| - 1] as int - '0' as int)
  }

  predicate AllDigits(s: string) { |s| > 0 && forall i :: 0 <= i < |s| ==> IsDigit(s[i]) }
  predicate AllSpace(s: string) { forall i :: 0 <= i < |s| ==> IsSpace(s[i]) }

  /** Python's `int(s)`: the whitespace around the number and between its
      sign and its digits is skipped. */
  function ParseInt(s: string): (r: Result<int>)
    ensures r.Err? ==> r.error == ValueError
  {
    var t := StripRight(StripLeft(s));
    if t != [] && (t[0] == '-' || t[0] == '+') then
      var u := StripLeft(t[1..]);
      if AllDigits(u) then
        var v: int := DigitsValue(u);
        Ok(if t[0] == '-' then -v else v)
      else Err(ValueError)
    else if AllDigits(t) then Ok(DigitsValue(t))
    else Err(ValueError)
  }

  lemma {:induction false} StripLeftSpaces(w: string, x: string)
    requires AllSpace(w)
    ensures StripLeft(w + x) == StripLeft(x)
  {
    if w != [] {
      assert (w + x)[0] == w[0] && (w + x)[1..] == w[1..] + x;
      StripLeftSpaces(w[1..], x);
    } else {
      assert w + x == x;
    }
  }

  lemma {:induction false} StripRightSpaces(x: string, w: string)
    requires AllSpace(w)
    ensures StripRight(x + w) == StripRight(x)
  {
    if w != [] {
      assert (x + w)[..|x + w| - 1] == x + w[..|w| - 1];
      StripRightSpaces(x, w[..|w| - 1]);
    } else {
      assert x + w == x;
    }
  }

  /** Stripping whitespace from around a string that neither starts nor
      ends with whitespace gives that string. */
  lemma StripAround(w1: string, core: string, w3: string)
    requires AllSpace(w1) && AllSpace(w3)
    requires core != [] && !IsSpace(core[0]) && !IsSpace(core[|core| - 1])
    ensures StripRight(StripLeft(w1 + core + w3)) == core
  {
    assert w1 + core + w3 == w1 + (core + w3);
    StripLeftSpaces(w1, core + w3);
    assert (core + w3)[0] == core[0];
    StripRightSpaces(core, w3);
  }

  /** The strings `int` accepts, with their values: a run of digits with
      an optional sign, the sign possibly followed by whitespace, and
      whitespace around the whole. */
  lemma ParseIntAccepts(w1: string, sign: string, w2: string, d: string, w3: string)
    requires AllSpace(w1) && AllSpace(w2) && AllSpace(w3) && AllDigits(d)
    requires sign == "" || sign == "-" || sign == "+"
    requires sign == "" ==> w2 == ""
    ensures ParseInt(w1 + sign + w2 + d + w3) == Ok(if sign == "-" then -(DigitsValue(d) as int) else DigitsValue(d))
  {
    if sign == "" {
      assert w1 + sign + w2 + d + w3 == w1 + d + w3;
      ParseIntUnsigned(w1, d, w3);
    } else {
      assert w1 + sign + w2 + d + w3 == w1 + ([sign[0]] + w2 + d) + w3;
      ParseIntSigned(w1, sign[0], w2, d, w3);
    }
  }

  lemma ParseIntUnsigned(w1: string, d: string, w3: string)
    requires AllSpace(w1) && AllSpace(w3) && AllDigits(d)
    ensures ParseInt(w1 + d + w3) == Ok(DigitsValue(d))
  {
    assert IsDigit(d[0]) && IsDigit(d[|d| - 1]);
    StripAround(w1, d, w3);
  }

  lemma ParseIntSigned(w1: string, c: char, w2: string, d: string, w3: string)
    requires AllSpace(w1) && AllSpace(w2) && AllSpace(w3) && AllDigits(d)
    requires c == '-' || c == '+'
    ensures ParseInt(w1 + ([c] + w2 + d) + w3) == Ok(if c == '-' then -(DigitsValue(d) as int) else DigitsValue(d))
  {
    var core := [c] + w2 + d;
    assert core[0] == c;
    assert IsDigit(d[|d| - 1]) && core[|core| - 1] == d[|d| - 1];
    StripAround(w1, core, w3);
    assert core[1..] == w2 + d;
    StripLeftSpaces(w2, d);
    assert IsDigit(d[0]);
  }

  /** `s.lstrip()` drops a run of whitespace from the front. */
  lemma {:induction false} StripLeftSplit(s: string)
    ensures |StripLeft(s)| <= |s|
    ensures AllSpace(s[..|s| - |StripLeft(s)|]) && s[|s| - |StripLeft(s)|..] == StripLeft(s)
  {
    if s != [] && IsSpace(s[0]) {
      StripLeftSplit(s[1..]);
      assert s[..|s| - |StripLeft(s)|] == [s[0]] + s[1..][..|s| - 1 - |StripLeft(s)|];
    }
  }

  /** `s.rstrip()` drops a run of whitespace from the back. */
  lemma {:induction false} StripRightSplit(s: string)
    ensures |StripRight(s)| <= |s|
    ensures s[..|StripRight(s)|] == StripRight(s) && AllSpace(s[|StripRight(s)|..])
  {
    if s != [] && IsSpace(s[|s| - 1]) {
      var p := s[..|s| - 1];
      StripRightSplit(p);
      assert s[|StripRight(s)|..] == p[|StripRight(p)|..] + [s[|s| - 1]];
    }
  }

  /** Stripping both ends drops a run of whitespace from each. */
  lemma StripShape(s: string) returns (w1: string, w3: string)
    ensures AllSpace(w1) && AllSpace(w3)
    ensures s == w1 + StripRight(StripLeft(s)) + w3
  {
    var l := StripLeft(s);
    var t := StripRight(l);
    StripLeftSplit(s);
    StripRightSplit(l);
    w1, w3 := s[..|s| - |l|], l[|t|..];
    assert s == w1 + l && l == t + w3;
  }

  /** A sign, then whitespace, then what `lstrip` leaves of the rest. */
  lemma SignedShape(t: string) returns (w2: string, d: string)
    requires t != []
    ensures AllSpace(w2) && d == StripLeft(t[1..]) && t == [t[0]] + w2 + d
  {
    var tail := t[1..];
    d := StripLeft(tail);
    StripLeftSplit(tail);
    w2 := tail[..|tail| - |d|];
    assert t == [t[0]] + tail && tail == w2 + d;
  }

  /** Conversely, every string `int` accepts has that shape, and its value
      is the one stated there. */
  lemma ParseIntOnly(s: string) returns (w1: string, sign: string, w2: string, d: string, w3: string)
    requires ParseInt(s).Ok?
    ensures AllSpace(w1) && AllSpace(w2) && AllSpace(w3) && AllDigits(d)
    ensures (sign == "" || sign == "-" || sign == "+") && (sign == "" ==> w2 == "")
    ensures s == w1 + sign + w2 + d + w3
    ensures ParseInt(s) == Ok(if sign == "-" then -(DigitsValue(d) as int) else DigitsValue(d))
  {
    var t := StripRight(StripLeft(s));
    w1, w3 := StripShape(s);
    if t != [] && (t[0] == '-' || t[0] == '+') {
      sign := [t[0]];
      w2, d := SignedShape(t);
    } else {
      sign, w2, d := "", "", t;
    }
    assert s == w1 + sign + w2 + d + w3;
    ParseIntAccepts(w1, sign, w2, d, w3);
  }

  /** Python's `str(n)` for an integer: the decimal digits, with `-` in front
      of a negative number. */
  function NatToString(n: nat): (s: string)
    ensures AllDigits(s)
    decreases n
  {
    if n < 10 then [('0' as int + n) as char]
    else NatToString(n / 10) + [('0' as int + n % 10) as char]
  }

  function IntToString(n: int): (s: string)
  {
    if n < 0 then "-" + NatToString(-n) else NatToString(n)
  }

  lemma {:induction false} NatToStringValue(n: nat)
    ensures DigitsValue(NatToString(n)) == n
    decreases n
  {
    var s := NatToString(n);
    if n >= 10 {
      NatToStringValue(n / 10);
      assert s[..|s| - 1] == NatToString(n / 10);
    }
  }

  /** `int(str(n)) == n`: the decimal rendering of a number parses back. */
  lemma ParseIntOfString(n: int)
    ensures ParseInt(IntToString(n)) == Ok(n)
  {
    var m: nat := if n < 0 then -n else n;
    var d := NatToString(m);
    NatToStringValue(m);
    var sign := if n < 0 then "-" else "";
    assert IntToString(n) == "" + sign + "" + d + "";
    ParseIntAccepts("", sign, "", d, "");
  }

  /** No decimal rendering contains a comma, so two of them joined by one
      split back into exactly two pieces. */
  lemma IntToStringNoComma(n: int)
    ensures ',' !in IntToString(n)
  {
    var m: nat := if n < 0 then -n else n;
    assert AllDigits(NatToString(m));
    if n < 0 {
      assert IntToString(n)[1..] == NatToString(m);
    }
  }
}
