/** Kotlin's `String` operations as the app uses them, over `seq<char>`:
    ASCII case folding for the `ignoreCase = true` comparisons, substring
    search, blankness, `split`, single-character `replace`, decimal printing
    (`toString`, `%d`, `%02d`) and `toIntOrNull`. */
module KotlinText {
  import opened KotlinStd

  // ---------------------------------------------------------------------
  // Case folding
  // ---------------------------------------------------------------------

  function LowerChar(c: char): char
  {
    if 'A' <= c <= 'Z' then (c as int + 32) as char else c
  }

  function UpperChar(c: char): char
  {
    if 'a' <= c <= 'z' then (c as int - 32) as char else c
  }

  /** `lowercase()` restricted to ASCII letters. */
  function Lower(s: string): (r: string)
    ensures |r| == |s|
    ensures forall i :: 0 <= i < |s| ==> r[i] == LowerChar(s[i])
  {
    seq(|s|, i requires 0 <= i < |s| => LowerChar(s[i]))
  }

  /** `uppercase()` restricted to ASCII letters. */
  function Upper(s: string): (r: string)
    ensures |r| == |s|
    ensures forall i :: 0 <= i < |s| ==> r[i] == UpperChar(s[i])
  {
    seq(|s|, i requires 0 <= i < |s| => UpperChar(s[i]))
  }

  /** `a.equals(b, ignoreCase = true)`. */
  predicate EqualsIgnoreCase(a: string, b: string)
  {
    Lower(a) == Lower(b)
  }

  // ---------------------------------------------------------------------
  // Substring search
  // ---------------------------------------------------------------------

  predicate StartsWith(s: string, p: string)
  {
    |p| <= |s| && s[..|p|] == p
  }

  /** `q` occurs in `s` starting at index `i`. */
  predicate OccursAt(s: string, q: string, i: int)
  {
    0 <= i && i + |q| <= |s| && s[i..i + |q|] == q
  }

  /** `s.contains(q)`: some suffix of `s` starts with `q`. */
  predicate Contains(s: string, q: string)
    decreases |s|
  {
    StartsWith(s, q) || (|s| > 0 && Contains(s[1..], q))
  }

  /** `Contains` agrees with the positional definition of an occurrence. */
  lemma {:induction false} ContainsIffOccurs(s: string, q: string)
    ensures Contains(s, q) <==> exists i :: OccursAt(s, q, i)
    decreases |s|
  {
    if StartsWith(s, q) {
      assert OccursAt(s, q, 0);
    } else if |s| > 0 {
      ContainsIffOccurs(s[1..], q);
      if Contains(s[1..], q) {
        var i :| OccursAt(s[1..], q, i);
        assert s[1..][i..i + |q|] == s[i + 1..i + 1 + |q|];
        assert OccursAt(s, q, i + 1);
      }
      if i :| OccursAt(s, q, i) {
        assert i != 0;
        assert s[1..][i - 1..i - 1 + |q|] == s[i..i + |q|];
        assert OccursAt(s[1..], q, i - 1);
      }
    } else {
      assert forall i :: OccursAt(s, q, i) ==> i == 0;
    }
  }

  /** The empty query occurs in every string. */
  lemma ContainsEmpty(s: string)
    ensures Contains(s, "")
  {
  }

  /** A one-character query occurs iff the character does. */
  lemma ContainsChar(s: string, c: char)
    ensures Contains(s, [c]) <==> c in s
  {
    ContainsIffOccurs(s, [c]);
    if c in s {
      var i :| 0 <= i < |s| && s[i] == c;
      assert OccursAt(s, [c], i);
    }
    if i :| OccursAt(s, [c], i) {
      assert s[i] == c;
    }
  }

  /** An occurrence of a non-empty query contains its first character. */
  lemma ContainsFirstChar(s: string, q: string)
    requires |q| > 0
    ensures Contains(s, q) ==> q[0] in s
  {
    ContainsIffOccurs(s, q);
    if i :| OccursAt(s, q, i) {
      assert s[i] == q[0];
    }
  }

  /** `s.contains(q, ignoreCase = true)`, with ASCII case folding. */
  predicate ContainsIgnoreCase(s: string, q: string)
  {
    Contains(Lower(s), Lower(q))
  }

  // ---------------------------------------------------------------------
  // Blankness
  // ---------------------------------------------------------------------

  /** `Char.isWhitespace()` on the JVM: `Character.isWhitespace` (the
      controls TAB to CR and FS to US, and the space, line and paragraph
      separators) or `Character.isSpaceChar` (which adds the no-break
      spaces U+00A0, U+2007 and U+202F). */
  predicate IsWhitespace(c: char)
  {
    || '\t' <= c <= '\r' || '\U{1C}' <= c <= '\U{1F}'
    || c == ' ' || c == '\U{A0}' || c == '\U{1680}'
    || '\U{2000}' <= c <= '\U{200A}'
    || c == '\U{2028}' || c == '\U{2029}'
    || c == '\U{202F}' || c == '\U{205F}' || c == '\U{3000}'
  }

  /** `isBlank()`: empty or whitespace only. */
  predicate IsBlank(s: string)
  {
    forall i :: 0 <= i < |s| ==> IsWhitespace(s[i])
  }

  /** The Unicode space separators count as blank, as they do for Kotlin;
      the zero-width space and letters do not. */
  lemma SpaceSeparatorsAreBlank()
    ensures IsBlank("\U{3000}") && IsBlank("\U{A0}") && IsBlank(" \U{2003}\t")
    ensures !IsBlank("\U{200B}") && !IsBlank(" a ")
  {
    assert !IsWhitespace('a') && !IsWhitespace('\U{200B}');
    assert " a "[1] == 'a' && "\U{200B}"[0] == '\U{200B}';
  }

  // ---------------------------------------------------------------------
  // split and replace
  // ---------------------------------------------------------------------

  /** `s.split(c)`: the pieces between occurrences of `c`, empty pieces kept. */
  function Split(s: string, c: char): (parts: seq<string>)
    ensures |parts| >= 1
    ensures forall k :: 0 <= k < |parts| ==> c !in parts[k]
    decreases |s|
  {
    if |s| == 0 then [""]
    else
      var rest := Split(s[1..], c);
      if s[0] == c then [""] + rest
      else [[s[0]] + rest[0]] + rest[1..]
  }

  /** Joining the pieces with the separator gives back the string. */
  function Join(parts: seq<string>, c: char): string
    decreases |parts|
  {
    if |parts| == 0 then ""
    else if |parts| == 1 then parts[0]
    else parts[0] + [c] + Join(parts[1..], c)
  }

  lemma {:induction false} SplitJoin(s: string, c: char)
    ensures Join(Split(s, c), c) == s
    decreases |s|
  {
    if |s| > 0 {
      SplitJoin(s[1..], c);
      var rest := Split(s[1..], c);
      if s[0] == c {
        assert Join([""] + rest, c) == "" + [c] + Join(rest, c);
      } else {
        var parts := [[s[0]] + rest[0]] + rest[1..];
        if |rest| == 1 {
          assert Join(parts, c) == [s[0]] + rest[0];
        } else {
          assert parts[1..] == rest[1..];
          assert Join(rest, c) == rest[0] + [c] + Join(rest[1..], c);
        }
      }
    }
  }

  /** Number of occurrences of `c` in `s`. */
  function CountChar(s: string, c: char): nat
    decreases |s|
  {
    if |s| == 0 then 0 else (if s[0] == c then 1 else 0) + CountChar(s[1..], c)
  }

  /** `split` yields one more piece than there are separators. */
  lemma {:induction false} SplitCount(s: string, c: char)
    ensures |Split(s, c)| == CountChar(s, c) + 1
    decreases |s|
  {
    if |s| > 0 {
      SplitCount(s[1..], c);
    }
  }

  /** Splitting `a + [c] + b` where `a` holds no separator yields `a` and then
      the pieces of `b`. */
  lemma {:induction false} SplitAfterFirst(a: string, c: char, b: string)
    requires c !in a
    ensures Split(a + [c] + b, c) == [a] + Split(b, c)
    decreases |a|
  {
    if |a| == 0 {
      assert a + [c] + b == [c] + b;
      assert ([c] + b)[1..] == b;
    } else {
      SplitAfterFirst(a[1..], c, b);
      assert (a + [c] + b)[1..] == a[1..] + [c] + b;
      assert [a[0]] + a[1..] == a;
    }
  }

  lemma {:induction false} SplitNoSeparator(a: string, c: char)
    requires c !in a
    ensures Split(a, c) == [a]
    decreases |a|
  {
    if |a| > 0 {
      SplitNoSeparator(a[1..], c);
      assert [a[0]] + a[1..] == a;
    }
  }

  /** Two pieces joined by the separator split back into those pieces. */
  lemma SplitTwo(a: string, c: char, b: string)
    requires c !in a && c !in b
    ensures Split(a + [c] + b, c) == [a, b]
  {
    SplitAfterFirst(a, c, b);
    SplitNoSeparator(b, c);
  }

  lemma SplitThree(a: string, c: char, b: string, d: string)
    requires c !in a && c !in b && c !in d
    ensures Split(a + [c] + b + [c] + d, c) == [a, b, d]
  {
    assert a + [c] + b + [c] + d == a + [c] + (b + [c] + d);
    SplitAfterFirst(a, c, b + [c] + d);
    SplitTwo(b, c, d);
  }

  /** `s.replace(c.toString(), r)`: every occurrence of `c` becomes `r`. */
  function ReplaceChar(s: string, c: char, r: string): (t: string)
    ensures c !in r ==> c !in t
    ensures c !in s ==> t == s
    decreases |s|
  {
    if |s| == 0 then ""
    else (if s[0] == c then r else [s[0]]) + ReplaceChar(s[1..], c, r)
  }

  /** Replacing one character keeps every other character. */
  lemma {:induction false} ReplaceCharKeeps(s: string, c: char, r: string, d: char)
    requires d != c && d in s
    ensures d in ReplaceChar(s, c, r)
    decreases |s|
  {
    var head := if s[0] == c then r else [s[0]];
    if s[0] != d {
      assert d in s[1..];
      ReplaceCharKeeps(s[1..], c, r, d);
    }
    assert ReplaceChar(s, c, r) == head + ReplaceChar(s[1..], c, r);
  }

  /** Replacing adds no character that was in neither the text nor the
      replacement. */
  lemma {:induction false} ReplaceCharAbsent(s: string, c: char, r: string, d: char)
    requires d !in s && d !in r
    ensures d !in ReplaceChar(s, c, r)
    decreases |s|
  {
    if |s| > 0 {
      assert d !in s[1..];
      ReplaceCharAbsent(s[1..], c, r, d);
    }
  }

  /** Replacing distributes over concatenation. */
  lemma {:induction false} ReplaceCharAppend(a: string, b: string, c: char, r: string)
    ensures ReplaceChar(a + b, c, r) == ReplaceChar(a, c, r) + ReplaceChar(b, c, r)
    decreases |a|
  {
    if |a| == 0 {
      assert a + b == b;
    } else {
      var head := if a[0] == c then r else [a[0]];
      assert (a + b)[0] == a[0] && (a + b)[1..] == a[1..] + b;
      var x, y := ReplaceChar(a[1..], c, r), ReplaceChar(b, c, r);
      calc {
        ReplaceChar(a + b, c, r);
        head + ReplaceChar(a[1..] + b, c, r);
        { ReplaceCharAppend(a[1..], b, c, r); }
        head + (x + y);
        (head + x) + y;
      }
    }
  }

  // ---------------------------------------------------------------------
  // Decimal numbers
  // ---------------------------------------------------------------------

  /** An ASCII decimal digit. */
  predicate IsDigit(c: char) { '0' <= c <= '9' }

  predicate AllDigits(s: string)
  {
    forall i :: 0 <= i < |s| ==> IsDigit(s[i])
  }

  function DigitChar(d: nat): char
    requires d < 10
  {
    ('0' as int + d) as char
  }

  /** The value of a string of decimal digits, leading zeros allowed. */
  function DigitsValue(s: string): nat
    requires AllDigits(s)
    decreases |s|
  {
    if |s| == 0 then 0
    else DigitsValue(s[..|s| - 1]) * 10 + (s[|s| - 1] as int - '0' as int)
  }

  /** Appending a zero digit multiplies the value by ten. */
  lemma DigitsAppendZero(d: string)
    requires AllDigits(d)
    ensures AllDigits(d + "0") && DigitsValue(d + "0") == DigitsValue(d) * 10
  {
    var e := d + "0";
    assert e[..|e| - 1] == d;
  }

  /** Appending three zero digits multiplies the value by a thousand. */
  lemma DigitsTimesThousand(d: string)
    requires AllDigits(d)
    ensures AllDigits(d + "000") && DigitsValue(d + "000") == DigitsValue(d) * 1000
  {
    DigitsAppendZero(d);
    DigitsAppendZero(d + "0");
    assert d + "0" + "0" == d + "00";
    DigitsAppendZero(d + "00");
    assert d + "00" + "0" == d + "000";
  }

  /** Appending six zero digits multiplies the value by a million. */
  lemma DigitsTimesMillion(d: string)
    requires AllDigits(d)
    ensures AllDigits(d + "000000") && DigitsValue(d + "000000") == DigitsValue(d) * 1000000
  {
    DigitsTimesThousand(d);
    DigitsTimesThousand(d + "000");
    assert d + "000" + "000" == d + "000000";
    var v := DigitsValue(d);
    assert v * 1000 * 1000 == v * 1000000;
  }

  /** `n.toString()` for `n >= 0`. */
  function NatToString(n: nat): (s: string)
    ensures |s| >= 1 && AllDigits(s)
    decreases n
  {
    if n < 10 then [DigitChar(n)] else NatToString(n / 10) + [DigitChar(n % 10)]
  }

  /** `n.toString()`, and what `%d` prints. */
  function IntToString(n: int): (s: string)
    ensures |s| >= 1
  {
    if n < 0 then "-" + NatToString(-n) else NatToString(n)
  }

  /** Printing and reading back a number are inverse. */
  lemma {:induction false} DigitsValueOfNatToString(n: nat)
    ensures DigitsValue(NatToString(n)) == n
    decreases n
  {
    if n >= 10 {
      DigitsValueOfNatToString(n / 10);
      var s := NatToString(n);
      assert s[..|s| - 1] == NatToString(n / 10);
    }
  }

  /** A leading zero does not change the value. */
  lemma {:induction false} DigitsValueLeadingZero(s: string)
    requires AllDigits(s)
    ensures AllDigits("0" + s) && DigitsValue("0" + s) == DigitsValue(s)
    decreases |s|
  {
    if |s| > 0 {
      DigitsValueLeadingZero(s[..|s| - 1]);
      assert ("0" + s)[..|"0" + s| - 1] == "0" + s[..|s| - 1];
    }
  }

  /** `String.format("%02d", n)`: at least two characters, zero-padded after
      the sign. */
  function Pad2(n: int): (s: string)
    ensures |s| >= 2
  {
    if n < 0 then IntToString(n)
    else if n < 10 then "0" + NatToString(n)
    else NatToString(n)
  }

  /** A printed number holds no character other than digits and a sign. */
  lemma NoSeparatorInNumber(n: nat, c: char)
    requires !IsDigit(c)
    ensures c !in NatToString(n) && c !in Pad2(n)
    ensures c != '-' ==> c !in IntToString(n) && c !in IntToString(-(n as int))
  {
    assert Pad2(n) == NatToString(n) || Pad2(n) == "0" + NatToString(n);
    if n > 0 {
      assert IntToString(-(n as int)) == "-" + NatToString(n);
    }
  }

  /** Kotlin's `toIntOrNull()`: an optional sign then decimal digits, in the
      32-bit range; anything else is `null`. Only ASCII digits are read. */
  function ToIntOrNull(s: string): (r: Option<int>)
    ensures r.Some? ==> InIntRange(r.value)
  {
    if |s| == 0 then None
    else if s[0] == '-' || s[0] == '+' then
      var body := s[1..];
      if |body| == 0 || !AllDigits(body) then None
      else
        var mag: int := DigitsValue(body);
        var v := if s[0] == '-' then -mag else mag;
        if InIntRange(v) then Some(v) else None
    else if !AllDigits(s) then None
    else if DigitsValue(s) <= IntMax then Some(DigitsValue(s))
    else None
  }

  /** `toIntOrNull` reads back what `toString` prints, in the `Int` range. */
  lemma ToIntOrNullOfNatToString(n: nat)
    requires n <= IntMax
    ensures ToIntOrNull(NatToString(n)) == Some(n)
  {
    DigitsValueOfNatToString(n);
  }

  /** `toIntOrNull` reads back what `%02d` prints for a two-digit field. */
  lemma ToIntOrNullOfPad2(n: nat)
    requires n < 100
    ensures ToIntOrNull(Pad2(n)) == Some(n)
  {
    DigitsValueOfNatToString(n);
    if n < 10 {
      DigitsValueLeadingZero(NatToString(n));
    }
  }

  /** A string with a character outside digits and signs is not a number. */
  lemma ToIntOrNullRejects(s: string, i: int)
    requires 0 <= i < |s| && !IsDigit(s[i]) && s[i] != '-' && s[i] != '+'
    ensures ToIntOrNull(s) == None
  {
    if |s| > 0 && (s[0] == '-' || s[0] == '+') {
      assert s[1..][i - 1] == s[i];
    }
  }
}
