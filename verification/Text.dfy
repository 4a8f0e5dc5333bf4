/** The parts of Go's fmt, strconv and strings packages that the release relies on. */
module Text {
  import opened Wrappers

  const MAX_INT := 0x7FFF_FFFF_FFFF_FFFF
  const MIN_INT := -0x8000_0000_0000_0000

  predicate IsDigit(c: char) { '0' <= c <= '9' }

  predicate AllDigits(s: string) { forall k :: 0 <= k < |s| ==> IsDigit(s[k]) }

  function DigitValue(c: char): nat
    requires IsDigit(c)
  {
    c as int - '0' as int
  }

  function Digit(n: nat): (c: char)
    requires n < 10
    ensures IsDigit(c) && DigitValue(c) == n
  {
    ('0' as int + n) as char
  }

  /** `%d` of a non-negative number. */
  function Decimal(n: nat): (s: string)
    ensures |s| > 0 && AllDigits(s)
  {
    if n < 10 then [Digit(n)] else Decimal(n / 10) + [Digit(n % 10)]
  }

  /** `%d` of any number. */
  function DecimalInt(n: int): string
  {
    if n < 0 then "-" + Decimal(-n) else Decimal(n)
  }

  function DigitsValue(s: string): nat
    requires AllDigits(s)
  {
    if s == "" then 0 else 10 * DigitsValue(s[..|s| - 1]) + DigitValue(s[|s| - 1])
  }

  /** `strconv.Atoi`: an optional sign, then one or more digits, within 64 bits. */
  function Atoi(s: string): Option<int>
  {
    var digits := if s != "" && (s[0] == '-' || s[0] == '+') then s[1..] else s;
    if digits == "" || !AllDigits(digits) then None
    else
      var n := (if s[0] == '-' then -1 else 1) * (DigitsValue(digits) as int);
      if MIN_INT <= n <= MAX_INT then Some(n) else None
  }

  /** What Atoi reads and refuses, form by form. */
  lemma AtoiExactly(digits: string)
    requires digits != "" && AllDigits(digits)
    ensures Atoi(digits) == Atoi("+" + digits)
    ensures DigitsValue(digits) <= 0x7FFF_FFFF_FFFF_FFFF ==> Atoi(digits) == Some(DigitsValue(digits))
    ensures DigitsValue(digits) > 0x7FFF_FFFF_FFFF_FFFF ==> Atoi(digits) == None
    ensures DigitsValue(digits) <= 0x8000_0000_0000_0000 ==> Atoi("-" + digits) == Some(-(DigitsValue(digits) as int))
    ensures DigitsValue(digits) > 0x8000_0000_0000_0000 ==> Atoi("-" + digits) == None
  {
    assert IsDigit(digits[0]);
    assert ("+" + digits)[1..] == digits && ("-" + digits)[1..] == digits;
  }

  /** Atoi reads nothing else. */
  lemma AtoiReadsOnly(s: string)
    requires Atoi(s).Some?
    ensures exists digits :: digits != "" && AllDigits(digits) && s in {digits, "+" + digits, "-" + digits}
  {
    var digits := if s[0] == '-' || s[0] == '+' then s[1..] else s;
    assert s == [s[0]] + s[1..];
    assert digits != "" && AllDigits(digits) && s in {digits, "+" + digits, "-" + digits};
  }

  lemma {:induction false} DecimalDigits(n: nat)
    ensures DigitsValue(Decimal(n)) == n
  {
    if n >= 10 {
      DecimalDigits(n / 10);
      assert Decimal(n)[..|Decimal(n)| - 1] == Decimal(n / 10);
    }
  }

  /** Every number a Go int can hold and print without a sign is read back by Atoi. */
  lemma DecimalRoundTrip(n: nat)
    requires n <= MAX_INT
    ensures Atoi(Decimal(n)) == Some(n)
  {
    DecimalDigits(n);
    assert IsDigit(Decimal(n)[0]);
  }

  lemma DecimalInjective(m: nat, n: nat)
    requires Decimal(m) == Decimal(n)
    ensures m == n
  {
    DecimalDigits(m);
    DecimalDigits(n);
  }

  /** `strings.Split` for a one-character separator. */
  function Split(s: string, sep: char): (parts: seq<string>)
    ensures |parts| > 0
  {
    if s == "" then [""]
    else
      var rest := Split(s[1..], sep);
      if s[0] == sep then [""] + rest else [[s[0]] + rest[0]] + rest[1..]
  }

  /** `strings.Join`. */
  function Join(parts: seq<string>, sep: string): string
  {
    if parts == [] then ""
    else if |parts| == 1 then parts[0]
    else parts[0] + sep + Join(parts[1..], sep)
  }

  lemma {:induction false} SplitPlain(s: string, sep: char)
    requires sep !in s
    ensures Split(s, sep) == [s]
  {
    if s != "" {
      SplitPlain(s[1..], sep);
      assert [s[0]] + s[1..] == s;
    }
  }

  lemma {:induction false} SplitFirst(head: string, rest: string, sep: char)
    requires sep !in head
    ensures Split(head + [sep] + rest, sep) == [head] + Split(rest, sep)
  {
    var s := head + [sep] + rest;
    if head == "" {
      assert s[1..] == rest;
    } else {
      assert s[1..] == head[1..] + [sep] + rest;
      SplitFirst(head[1..], rest, sep);
      assert [head[0]] + head[1..] == head;
    }
  }

  lemma {:induction false} SplitJoin(parts: seq<string>, sep: char)
    requires parts != []
    requires forall k :: 0 <= k < |parts| ==> sep !in parts[k]
    ensures Split(Join(parts, [sep]), sep) == parts
  {
    if |parts| == 1 {
      SplitPlain(parts[0], sep);
    } else {
      SplitJoin(parts[1..], sep);
      SplitFirst(parts[0], Join(parts[1..], [sep]), sep);
      assert [parts[0]] + parts[1..] == parts;
    }
  }

  /** Whatever is split: no part holds the separator, and joining them gives the string back. */
  lemma {:induction false} JoinSplit(s: string, sep: char)
    ensures Join(Split(s, sep), [sep]) == s
    ensures forall p :: p in Split(s, sep) ==> sep !in p
  {
    if s != "" {
      var rest := Split(s[1..], sep);
      JoinSplit(s[1..], sep);
      if s[0] == sep {
        assert ([""] + rest)[1..] == rest;
        assert s == [sep] + s[1..];
      } else {
        JoinLonger(s[0], rest, sep);
        assert rest[0] in rest && forall p :: p in rest[1..] ==> p in rest;
      }
    }
  }

  lemma {:induction false} JoinLonger(c: char, rest: seq<string>, sep: char)
    requires rest != []
    ensures Join([[c] + rest[0]] + rest[1..], [sep]) == [c] + Join(rest, [sep])
  {
    assert ([[c] + rest[0]] + rest[1..])[1..] == rest[1..];
  }

  /** `strings.Replace(s, old, new, -1)` for single characters. */
  function ReplaceChar(s: string, before: char, after: char): (r: string)
    ensures |r| == |s|
    ensures forall k :: 0 <= k < |s| ==> r[k] == if s[k] == before then after else s[k]
  {
    if s == "" then "" else [if s[0] == before then after else s[0]] + ReplaceChar(s[1..], before, after)
  }

  /** `strings.Contains`. */
  predicate Contains(s: string, sub: string)
  {
    sub <= s || (s != "" && Contains(s[1..], sub))
  }

  lemma StandsLater(s: string, a: string, sub: string, b: string)
    requires s == a + sub + b && !(sub <= s)
    ensures a != "" && s[1..] == a[1..] + sub + b
  {
    assert (sub + b)[..|sub|] == sub;
    assert "" + sub + b == sub + b;
  }

  /** A string contains another exactly if that one stands somewhere in it. */
  lemma {:induction false} ContainsExactly(s: string, sub: string)
    ensures Contains(s, sub) <==> exists a, b :: s == a + sub + b
  {
    if sub <= s {
      assert s == "" + sub + s[|sub|..];
    } else if s != "" {
      ContainsExactly(s[1..], sub);
      if a, b :| s[1..] == a + sub + b {
        assert s == ([s[0]] + a) + sub + b;
      }
      forall a, b | s == a + sub + b ensures Contains(s, sub) {
        StandsLater(s, a, sub, b);
      }
    }
  }

  /** The part of `s` before the first `c` and the part after it. */
  function CutFirst(s: string, c: char): Option<(string, string)>
  {
    if s == "" then None
    else if s[0] == c then Some(("", s[1..]))
    else match CutFirst(s[1..], c)
      case None => None
      case Some((before, after)) => Some(([s[0]] + before, after))
  }

  lemma {:induction false} CutFirstAt(before: string, c: char, after: string)
    requires c !in before
    ensures CutFirst(before + [c] + after, c) == Some((before, after))
  {
    var s := before + [c] + after;
    if before == "" {
      assert s[1..] == after;
    } else {
      assert s[1..] == before[1..] + [c] + after;
      CutFirstAt(before[1..], c, after);
      assert [before[0]] + before[1..] == before;
    }
  }

  /** The part of `s` before the last `c` and the part after it. */
  function CutLast(s: string, c: char): Option<(string, string)>
  {
    if s == "" then None
    else if s[|s| - 1] == c then Some((s[..|s| - 1], ""))
    else match CutLast(s[..|s| - 1], c)
      case None => None
      case Some((before, after)) => Some((before, after + [s[|s| - 1]]))
  }

  lemma {:induction false} CutLastAt(before: string, c: char, after: string)
    requires c !in after
    ensures CutLast(before + [c] + after, c) == Some((before, after))
  {
    var s := before + [c] + after;
    if after == "" {
      assert s[..|s| - 1] == before;
    } else {
      var init := after[..|after| - 1];
      assert s[..|s| - 1] == before + [c] + init;
      CutLastAt(before, c, init);
      assert init + [after[|after| - 1]] == after;
    }
  }

  /** Equal concatenations with equal-length fronts have equal parts. */
  lemma SameFront(a: string, b: string, c: string, d: string)
    requires |a| == |b|
    requires a + c == b + d
    ensures a == b && c == d
  {
    assert (a + c)[..|a|] == a && (a + c)[|a|..] == c;
    assert (b + d)[..|b|] == b && (b + d)[|b|..] == d;
  }

  /** Equal concatenations with the same front and the same back have equal middles. */
  lemma SameMiddle(front: string, a: string, b: string, back: string)
    requires front + a + back == front + b + back
    ensures a == b
  {
    assert |front + a + back| == |front + b + back|;
    SameFront(front + a, front + b, back, back);
    SameFront(front, front, a, b);
  }
}
