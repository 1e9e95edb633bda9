/** Value types and the text order shared by the component models. */
module Basics {

  datatype Option<+T> = None | Some(value: T)

  /** How one database call can go wrong for its caller: the statement never ran, or it committed
      and the answer was lost. */
  datatype Fault = NoFault | BeforeCommit | AfterCommit

  /** Text comparison used by ORDER BY clauses and by filename sorting. */
  predicate LexLe(a: string, b: string)
  {
    a == [] || (b != [] && (a[0] < b[0] || (a[0] == b[0] && LexLe(a[1..], b[1..]))))
  }

  lemma {:induction false} LexTotal(a: string, b: string)
    ensures LexLe(a, b) || LexLe(b, a)
    ensures LexLe(a, b) && LexLe(b, a) ==> a == b
  {
    if a != [] && b != [] && a[0] == b[0] {
      LexTotal(a[1..], b[1..]);
      assert a == [a[0]] + a[1..] && b == [b[0]] + b[1..];
    }
  }

  lemma {:induction false} LexTransitive(a: string, b: string, c: string)
    requires LexLe(a, b) && LexLe(b, c)
    ensures LexLe(a, c)
  {
    if a != [] && a[0] == b[0] == c[0] {
      LexTransitive(a[1..], b[1..], c[1..]);
    }
  }

  /** Text order, character by character: the first place where they differ decides, and a text comes before
      its extensions. */
  predicate InTextOrder(a: string, b: string)
  {
    a <= b || exists k | 0 <= k < |a| :: SmallerAt(a, b, k)
  }

  /** Alike before place k, and smaller there. */
  predicate SmallerAt(a: string, b: string, k: nat)
  {
    k < |a| && k < |b| && a[..k] == b[..k] && a[k] < b[k]
  }

  lemma {:induction false} LexIsTextOrder(a: string, b: string)
    ensures LexLe(a, b) <==> InTextOrder(a, b)
  {
    if a != [] && b != [] && a[0] == b[0] {
      LexIsTextOrder(a[1..], b[1..]);
      TailsKeepOrder(a, b);
    } else if a != [] && b != [] && a[0] < b[0] {
      assert SmallerAt(a, b, 0);
    }
  }

  lemma TailsKeepOrder(a: string, b: string)
    requires a != [] && b != [] && a[0] == b[0]
    ensures InTextOrder(a, b) <==> InTextOrder(a[1..], b[1..])
  {
    assert a <= b <==> a[1..] <= b[1..];
    forall k: nat | k < |a| - 1 ensures SmallerAt(a, b, k + 1) <==> SmallerAt(a[1..], b[1..], k) {
      assert a[..k + 1] == [a[0]] + a[1..][..k];
      if k < |b| - 1 {
        assert b[..k + 1] == [b[0]] + b[1..][..k];
      }
    }
    if k :| 0 <= k < |a| && SmallerAt(a, b, k) {
      assert SmallerAt(a[1..], b[1..], k - 1);
    }
    if k :| 0 <= k < |a[1..]| && SmallerAt(a[1..], b[1..], k) {
      assert SmallerAt(a, b, k + 1);
    }
  }

  lemma TextTotal(a: string, b: string)
    ensures InTextOrder(a, b) || InTextOrder(b, a)
    ensures InTextOrder(a, b) && InTextOrder(b, a) ==> a == b
  {
    LexIsTextOrder(a, b);
    LexIsTextOrder(b, a);
    LexTotal(a, b);
  }

  lemma TextTransitive(a: string, b: string, c: string)
    requires InTextOrder(a, b) && InTextOrder(b, c)
    ensures InTextOrder(a, c)
  {
    LexIsTextOrder(a, b);
    LexIsTextOrder(b, c);
    LexTransitive(a, b, c);
    LexIsTextOrder(a, c);
  }

  /** Decimal text of a number. */
  function Digits(n: nat): string
  {
    if n < 10 then [('0' as int + n) as char] else Digits(n / 10) + [('0' as int + n % 10) as char]
  }

  function Signed(n: int): string
  {
    if n < 0 then "-" + Digits(-n) else Digits(n)
  }

  lemma {:induction false} DigitsAreUnique(a: nat, b: nat)
    requires Digits(a) == Digits(b)
    ensures a == b
    decreases a
  {
    DigitsNotEmpty(a / 10);
    DigitsNotEmpty(b / 10);
    if a >= 10 && b >= 10 {
      var n := |Digits(a)| - 1;
      assert Digits(a)[..n] == Digits(a / 10) && Digits(b)[..n] == Digits(b / 10);
      assert Digits(a)[n] == Digits(b)[n];
      DigitsAreUnique(a / 10, b / 10);
    } else if a < 10 && b < 10 {
      assert Digits(a)[0] == Digits(b)[0];
    }
  }

  lemma {:induction false} DigitsNotEmpty(n: nat)
    ensures Digits(n) != "" && Digits(n)[0] != '-'
    decreases n
  {
    if n >= 10 {
      DigitsNotEmpty(n / 10);
    }
  }

  lemma SignedIsUnique(a: int, b: int)
    requires Signed(a) == Signed(b)
    ensures a == b
  {
    DigitsNotEmpty(if a < 0 then -a else a);
    DigitsNotEmpty(if b < 0 then -b else b);
    if a < 0 && b < 0 {
      assert Signed(a)[1..] == Digits(-a) && Signed(b)[1..] == Digits(-b);
      DigitsAreUnique(-a, -b);
    } else if a >= 0 && b >= 0 {
      DigitsAreUnique(a, b);
    }
  }

  // ---- White space ----

  /** str.isspace. */
  predicate IsSpace(c: char)
  {
    var n := c as int;
    9 <= n <= 13 || 28 <= n <= 32 || n == 0x85 || n == 0xA0 || n == 0x1680 || 0x2000 <= n <= 0x200A
    || n == 0x2028 || n == 0x2029 || n == 0x202F || n == 0x205F || n == 0x3000
  }

  function LStrip(s: string): string
  {
    if s != "" && IsSpace(s[0]) then LStrip(s[1..]) else s
  }

  function RStrip(s: string): string
  {
    if s != "" && IsSpace(s[|s| - 1]) then RStrip(s[..|s| - 1]) else s
  }

  function Strip(s: string): string
  {
    RStrip(LStrip(s))
  }

  predicate IsTrimmed(s: string)
  {
    s != "" ==> !IsSpace(s[0]) && !IsSpace(s[|s| - 1])
  }

  lemma TrimmedStays(s: string)
    requires IsTrimmed(s)
    ensures Strip(s) == s
  {
  }

  lemma {:induction false} RStripEnds(s: string)
    ensures RStrip(s) <= s && (RStrip(s) != "" ==> !IsSpace(RStrip(s)[|RStrip(s)| - 1]))
  {
    if s != "" && IsSpace(s[|s| - 1]) {
      RStripEnds(s[..|s| - 1]);
    }
  }

  lemma {:induction false} LStripStarts(s: string)
    ensures LStrip(s) != "" ==> !IsSpace(LStrip(s)[0])
  {
    if s != "" && IsSpace(s[0]) {
      LStripStarts(s[1..]);
    }
  }

  lemma StripIsTrimmed(s: string)
    ensures IsTrimmed(Strip(s)) && Strip(Strip(s)) == Strip(s)
  {
    LStripStarts(s);
    RStripEnds(LStrip(s));
    TrimmedStays(Strip(s));
  }

  predicate AllSpace(s: string)
  {
    forall i :: 0 <= i < |s| ==> IsSpace(s[i])
  }

  lemma {:induction false} LStripTakesSpace(s: string) returns (before: string)
    ensures s == before + LStrip(s) && AllSpace(before)
  {
    before := "";
    if s != "" && IsSpace(s[0]) {
      before := LStripTakesSpace(s[1..]);
      before := [s[0]] + before;
    }
  }

  lemma {:induction false} RStripTakesSpace(s: string) returns (after: string)
    ensures s == RStrip(s) + after && AllSpace(after)
  {
    after := "";
    if s != "" && IsSpace(s[|s| - 1]) {
      after := RStripTakesSpace(s[..|s| - 1]);
      after := after + [s[|s| - 1]];
    }
  }

  /** Stripping takes away white space at the two ends and nothing else. */
  lemma StripTakesOnlySpace(s: string) returns (before: string, after: string)
    ensures s == before + Strip(s) + after && AllSpace(before) && AllSpace(after)
  {
    before := LStripTakesSpace(s);
    after := RStripTakesSpace(LStrip(s));
  }
}
