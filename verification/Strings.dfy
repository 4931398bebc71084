/** Go's string helpers as the GPU parser uses them: TrimSpace, Split, Atoi, ParseUint. */
module Strings {
  import opened Int64
  import opened Wrappers

  // ---------- TrimSpace ----------

  /** unicode.IsSpace. */
  predicate IsSpace(c: char) {
    || '\t' <= c <= '\r' || c == ' ' || c == '\U{85}' || c == '\U{A0}' || c == '\U{1680}'
    || '\U{2000}' <= c <= '\U{200A}' || c == '\U{2028}' || c == '\U{2029}' || c == '\U{202F}' || c == '\U{205F}'
          || c == '\U{3000}'
  }

  /** The 25 space characters. */
  const SPACES :=
    "\t\n\U{0B}\U{0C}\r \U{85}\U{A0}\U{1680}\U{2000}\U{2001}\U{2002}\U{2003}\U{2004}\U{2005}\U{2006}\U{2007}"
    + "\U{2008}\U{2009}\U{200A}\U{2028}\U{2029}\U{202F}\U{205F}\U{3000}"

  lemma IsSpaceIff(c: char)
    ensures IsSpace(c) <==> c in SPACES
  {
    var n := c as int;
    if '\U{2000}' <= c <= '\U{200A}' {
      assert SPACES[9 + (n - 0x2000)] == c;
    } else if '\t' <= c <= '\r' {
      assert SPACES[n - 9] == c;
    } else {
      assert SPACES[5] == ' ' && SPACES[6] == '\U{85}' && SPACES[7] == '\U{A0}' && SPACES[8] == '\U{1680}';
      assert SPACES[20] == '\U{2028}' && SPACES[21] == '\U{2029}' && SPACES[22] == '\U{202F}';
      assert SPACES[23] == '\U{205F}' && SPACES[24] == '\U{3000}';
    }
  }

  function TrimLeft(s: string): string {
    if s != "" && IsSpace(s[0]) then TrimLeft(s[1..]) else s
  }

  function TrimRight(s: string): string {
    if s != "" && IsSpace(s[|s| - 1]) then TrimRight(s[..|s| - 1]) else s
  }

  function TrimSpace(s: string): string {
    TrimRight(TrimLeft(s))
  }

  /** No space at either end. */
  predicate Trimmed(s: string) {
    s == "" || (!IsSpace(s[0]) && !IsSpace(s[|s| - 1]))
  }

  lemma TrimmedStays(s: string)
    requires Trimmed(s)
    ensures TrimSpace(s) == s
  {
  }

  /** What TrimSpace gives has no space at its ends, and what it took away is space. */
  lemma TrimSpaceMeans(s: string) returns (before: string, after: string)
    ensures Trimmed(TrimSpace(s)) && s == before + TrimSpace(s) + after
    ensures AllSpace(before) && AllSpace(after)
  {
    var t := TrimLeft(s);
    before := LeftTaken(s);
    after := RightTaken(t);
    assert t == TrimRight(t) + after;
    if TrimRight(t) != "" { assert TrimRight(t)[0] == t[0]; }
    assert s == before + (TrimRight(t) + after);
  }

  predicate AllSpace(s: string) {
    forall i :: 0 <= i < |s| ==> IsSpace(s[i])
  }

  lemma {:induction false} LeftTaken(s: string) returns (before: string)
    ensures s == before + TrimLeft(s) && AllSpace(before)
    ensures TrimLeft(s) != "" ==> !IsSpace(TrimLeft(s)[0])
  {
    before := "";
    if s != "" && IsSpace(s[0]) {
      var more := LeftTaken(s[1..]);
      before := [s[0]] + more;
      assert s == [s[0]] + s[1..];
    }
  }

  lemma {:induction false} RightTaken(s: string) returns (after: string)
    ensures s == TrimRight(s) + after && AllSpace(after)
    ensures TrimRight(s) != "" ==> !IsSpace(TrimRight(s)[|TrimRight(s)| - 1])
  {
    after := "";
    if s != "" && IsSpace(s[|s| - 1]) {
      var more := RightTaken(s[..|s| - 1]);
      after := more + [s[|s| - 1]];
      assert s == s[..|s| - 1] + [s[|s| - 1]];
    }
  }

  /** Spaces after a trimmed text are taken away again. */
  lemma {:induction false} TrimsTail(s: string, tail: string)
    requires Trimmed(s) && s != "" && AllSpace(tail)
    ensures TrimSpace(s + tail) == s
    decreases |tail|
  {
    if tail == "" {
      assert s + tail == s;
    } else {
      var less := tail[..|tail| - 1];
      assert (s + tail)[..|s + tail| - 1] == s + less;
      assert (s + tail)[|s + tail| - 1] == tail[|tail| - 1];
      TrimsTail(s, less);
    }
  }

  // ---------- Split ----------

  predicate At(s: string, sep: string, i: nat) {
    i + |sep| <= |s| && s[i..i + |sep|] == sep
  }

  lemma AtChars(s: string, sep: string, i: nat)
    ensures At(s, sep, i) ==> forall k :: 0 <= k < |sep| ==> s[i + k] == sep[k]
  {
    if At(s, sep, i) {
      forall k | 0 <= k < |sep| ensures s[i + k] == sep[k] {
        assert s[i..i + |sep|][k] == s[i + k];
      }
    }
  }

  /** The first place of `sep` in `s` from `from` on, or -1. */
  function FindFrom(s: string, sep: string, from: nat): (i: int)
    ensures i == -1 ==> forall j: nat :: j >= from ==> !At(s, sep, j)
    ensures i != -1 ==> i >= from && At(s, sep, i) && forall j: nat :: from <= j < i ==> !At(s, sep, j)
    decreases |s| - from
  {
    if from + |sep| > |s| then -1
    else if At(s, sep, from) then from
    else FindFrom(s, sep, from + 1)
  }

  function Split(s: string, sep: string): (parts: seq<string>)
    requires sep != ""
    ensures |parts| >= 1
    decreases |s|
  {
    var i := FindFrom(s, sep, 0);
    if i == -1 then [s] else [s[..i]] + Split(s[i + |sep|..], sep)
  }

  function Join(parts: seq<string>, sep: string): string {
    if parts == [] then "" else if |parts| == 1 then parts[0] else parts[0] + sep + Join(parts[1..], sep)
  }

  /** Put before a separator, the text adds no earlier place where the separator would be found. */
  predicate Clear(part: string, sep: string) {
    forall i: nat :: i < |part| ==> !At(part + sep, sep, i)
  }

  lemma ClearFinds(part: string, sep: string, rest: string)
    requires sep != "" && Clear(part, sep)
    ensures FindFrom(part + sep + rest, sep, 0) == |part|
  {
    var s := part + sep + rest;
    assert At(s, sep, |part|);
    forall i: nat | i < |part| ensures !At(s, sep, i) {
      assert !At(part + sep, sep, i);
      assert i + |sep| <= |part + sep| ==> s[i..i + |sep|] == (part + sep)[i..i + |sep|];
    }
  }

  lemma ClearAlone(part: string, sep: string)
    requires sep != "" && Clear(part, sep)
    ensures FindFrom(part, sep, 0) == -1
  {
    forall i: nat ensures !At(part, sep, i) {
      if i < |part| {
        assert !At(part + sep, sep, i);
        assert i + |sep| <= |part| ==> part[i..i + |sep|] == (part + sep)[i..i + |sep|];
      }
    }
  }

  /** Joining such texts and splitting gives them back. */
  lemma {:induction false} SplitUndoesJoin(parts: seq<string>, sep: string)
    requires sep != "" && |parts| >= 1
    requires forall i :: 0 <= i < |parts| ==> Clear(parts[i], sep)
    ensures Split(Join(parts, sep), sep) == parts
  {
    if |parts| == 1 {
      ClearAlone(parts[0], sep);
    } else {
      var rest := Join(parts[1..], sep);
      var s := parts[0] + sep + rest;
      ClearFinds(parts[0], sep, rest);
      assert s[..|parts[0]|] == parts[0] && s[|parts[0]| + |sep|..] == rest;
      SplitUndoesJoin(parts[1..], sep);
    }
  }

  lemma JoinCons(first: string, parts: seq<string>, sep: string)
    requires |parts| >= 1
    ensures Join([first] + parts, sep) == first + sep + Join(parts, sep)
  {
    assert ([first] + parts)[1..] == parts;
  }

  lemma CutAt(s: string, sep: string, i: nat)
    requires At(s, sep, i)
    ensures s == s[..i] + sep + s[i + |sep|..]
  {
    AtChars(s, sep, i);
    var t := s[..i] + sep + s[i + |sep|..];
    assert |t| == |s| && forall k :: 0 <= k < |s| ==> t[k] == s[k];
  }

  /** And splitting any text and joining gives that text back. */
  lemma {:induction false} JoinUndoesSplit(s: string, sep: string)
    requires sep != ""
    ensures Join(Split(s, sep), sep) == s
    decreases |s|
  {
    var i := FindFrom(s, sep, 0);
    if i != -1 {
      var tail := s[i + |sep|..];
      JoinUndoesSplit(tail, sep);
      JoinCons(s[..i], Split(tail, sep), sep);
      hide Split, Join;
      CutAt(s, sep, i);
    }
  }

  lemma WithinFront(s: string, i: nat, j: nat, n: nat)
    requires j + n <= i <= |s|
    ensures s[..i][j..j + n] == s[j..j + n]
  {
    var a, b := s[..i][j..j + n], s[j..j + n];
    assert |a| == |b| && forall k :: 0 <= k < n ==> a[k] == s[j + k] == b[k];
  }

  /** No part of a split text holds the separator. */
  lemma {:induction false} PartsHoldNone(s: string, sep: string)
    requires sep != ""
    ensures forall k: nat, j: nat :: k < |Split(s, sep)| ==> !At(Split(s, sep)[k], sep, j)
    decreases |s|
  {
    var i := FindFrom(s, sep, 0);
    if i == -1 {
      assert Split(s, sep) == [s];
    } else {
      var tail := s[i + |sep|..];
      PartsHoldNone(tail, sep);
      assert Split(s, sep) == [s[..i]] + Split(tail, sep);
      forall j: nat ensures !At(s[..i], sep, j) {
        if j + |sep| <= i {
          WithinFront(s, i, j, |sep|);
          assert !At(s, sep, j);
        }
      }
    }
  }

  // ---------- Numbers ----------

  predicate IsDigit(c: char) { '0' <= c <= '9' }

  predicate AllDigits(s: string) {
    forall i :: 0 <= i < |s| ==> IsDigit(s[i])
  }

  function Value(s: string): nat
    requires AllDigits(s)
  {
    if s == "" then 0 else 10 * Value(s[..|s| - 1]) + (s[|s| - 1] as int - '0' as int)
  }

  /** strconv.ParseUint(s, 10, 64). */
  function ParseUint(s: string): Option<nat> {
    if s == "" || !AllDigits(s) || Value(s) >= TWO_64 then None else Some(Value(s))
  }

  /** strconv.Atoi on a 64-bit machine. */
  function Atoi(s: string): Option<int> {
    var negative := s != "" && s[0] == '-';
    var digits := if s != "" && (s[0] == '-' || s[0] == '+') then s[1..] else s;
    if digits == "" || !AllDigits(digits) then None
    else
      var v: int := Value(digits);
      var n := if negative then -v else v;
      if -TWO_63 <= n < TWO_63 then Some(n) else None
  }

  function Digit(n: nat): char
    requires n < 10
  {
    '0' + n as char
  }

  function Decimal(n: nat): (s: string)
    ensures s != "" && AllDigits(s)
  {
    if n < 10 then [Digit(n)] else Decimal(n / 10) + [Digit(n % 10)]
  }

  function DecimalInt(n: int): string {
    if n < 0 then "-" + Decimal(-n) else Decimal(n)
  }

  lemma {:induction false} ValueOfDecimal(n: nat)
    ensures Value(Decimal(n)) == n
  {
    var s := Decimal(n);
    if n < 10 {
      assert s[..0] == "";
    } else {
      ValueOfDecimal(n / 10);
      assert s[..|s| - 1] == Decimal(n / 10);
    }
  }

  predicate Zeros(s: string) {
    forall i :: 0 <= i < |s| ==> s[i] == '0'
  }

  /** Decimal notation: one digit more multiplies by ten. */
  lemma DecimalMeans(n: nat, d: nat)
    requires d < 10
    ensures Decimal(d) == ["0123456789"[d]]
    ensures n > 0 ==> Decimal(10 * n + d) == Decimal(n) + ["0123456789"[d]]
    ensures n > 0 ==> DecimalInt(0 - n) == "-" + Decimal(n)
  {
    assert (10 * n + d) / 10 == n && (10 * n + d) % 10 == d;
    assert Digit(d) == "0123456789"[d];
  }

  lemma {:induction false} ZerosCount(zeros: string, d: string)
    requires Zeros(zeros) && AllDigits(d)
    ensures AllDigits(zeros + d) && Value(zeros + d) == Value(d)
    decreases |zeros| + |d|
  {
    var s := zeros + d;
    if d != "" {
      ZerosCount(zeros, d[..|d| - 1]);
      assert s[..|s| - 1] == zeros + d[..|d| - 1];
    } else if zeros != "" {
      ZerosCount(zeros[..|zeros| - 1], "");
      assert s[..|s| - 1] == zeros[..|zeros| - 1] + "";
    }
  }

  lemma ValueMeans(t: string, d: nat)
    requires AllDigits(t) && d < 10
    ensures var s := t + ["0123456789"[d]]; AllDigits(s) && Value(s) == 10 * Value(t) + d
    ensures Value("") == 0
  {
    assert (t + ["0123456789"[d]])[..|t|] == t;
  }

  /** Digits are the decimal notation of their value, behind zeros. */
  lemma {:induction false} DigitsAre(s: string) returns (zeros: string)
    requires s != "" && AllDigits(s)
    ensures Zeros(zeros) && s == zeros + Decimal(Value(s))
    decreases |s|
  {
    hide Value, Decimal;
    var t, c := s[..|s| - 1], s[|s| - 1];
    var d := c as int - '0' as int;
    assert s == t + [c] && "0123456789"[d] == c;
    ValueMeans(t, d);
    if t == "" {
      zeros := "";
      DecimalMeans(0, d);
    } else {
      zeros := DigitsAre(t);
      DecimalMeans(Value(t), d);
      if Value(t) == 0 {
        DecimalMeans(0, 0);
        zeros := t;
      } else {
        assert s == zeros + (Decimal(Value(t)) + [c]);
      }
    }
  }

  /** What ParseUint reads as `n`: the decimal notation of `n`, behind zeros or not, below 2 to the 64. */
  lemma ParseUintIff(s: string, n: nat)
    ensures ParseUint(s) == Some(n) <==> n < 0x1_0000_0000_0000_0000 && exists z :: Zeros(z) && s == z + Decimal(n)
  {
    hide Value, Decimal;
    if s != "" && AllDigits(s) { var z := DigitsAre(s); }
    if z :| Zeros(z) && s == z + Decimal(n) {
      ValueOfDecimal(n);
      ZerosCount(z, Decimal(n));
    }
  }

  /** A number with or without a sign, behind zeros or not. */
  ghost predicate Signed(s: string, n: int) {
    exists z :: Zeros(z) && ((n >= 0 && (s == z + Decimal(n) || s == "+" + z + Decimal(n)))
                             || (n <= 0 && s == "-" + z + Decimal(-n)))
  }

  /** What Atoi reads as `n`: such a number, of 64 bits. */
  lemma AtoiIff(s: string, n: int)
    ensures Atoi(s) == Some(n) <==> -0x8000_0000_0000_0000 <= n < 0x8000_0000_0000_0000 && Signed(s, n)
  {
    hide Value, Decimal;
    if Atoi(s) == Some(n) { AtoiReads(s, n); }
    if Signed(s, n) { SignedReads(s, n); }
  }

  lemma AtoiReads(s: string, n: int)
    requires Atoi(s) == Some(n)
    ensures Signed(s, n)
  {
    hide Value, Decimal, AllDigits;
    var digits := if s[0] == '-' || s[0] == '+' then s[1..] else s;
    var z := DigitsAre(digits);
    Regroup([s[0]], z, Decimal(Value(digits)));
    assert s == digits || s == [s[0]] + digits;
  }

  lemma Regroup(a: string, b: string, c: string)
    ensures a + b + c == a + (b + c)
  {
  }

  lemma SignedReads(s: string, n: int)
    requires Signed(s, n)
    ensures Atoi(s) == if -TWO_63 <= n < TWO_63 then Some(n) else None
  {
    hide Value, Decimal;
    var z :| Zeros(z) && ((n >= 0 && (s == z + Decimal(n) || s == "+" + z + Decimal(n)))
                          || (n <= 0 && s == "-" + z + Decimal(-n)));
    var m: nat := if n < 0 then -n else n;
    var digits := z + Decimal(m);
    ValueOfDecimal(m);
    ZerosCount(z, Decimal(m));
    assert IsDigit(digits[0]);
    assert s == digits || s == "+" + digits || s == "-" + digits;
    assert ("+" + digits)[1..] == digits && ("-" + digits)[1..] == digits;
  }

  lemma ParseUintUndoes(n: nat)
    ensures ParseUint(Decimal(n)) == if n < TWO_64 then Some(n) else None
  {
    ValueOfDecimal(n);
  }

  lemma AtoiPlain(d: string)
    requires d != "" && AllDigits(d)
    ensures Atoi(d) == if Value(d) < TWO_63 then Some(Value(d)) else None
  {
    hide Value;
    assert IsDigit(d[0]);
  }

  lemma AtoiMinus(d: string)
    requires d != "" && AllDigits(d)
    ensures Atoi("-" + d) == if Value(d) <= TWO_63 then Some(0 - Value(d)) else None
  {
    hide Value;
    assert ("-" + d)[1..] == d;
  }

  lemma AtoiUndoes(n: int)
    ensures Atoi(DecimalInt(n)) == if -TWO_63 <= n < TWO_63 then Some(n) else None
  {
    hide Atoi, Decimal, Value, AllDigits;
    var size: nat := if n < 0 then -n else n;
    ValueOfDecimal(size);
    AtoiPlain(Decimal(size));
    AtoiMinus(Decimal(size));
  }

  // ---------- Fresh names ----------

  function Dots(n: nat): string {
    if n == 0 then "" else "." + Dots(n - 1)
  }

  lemma {:induction false} DotsLength(n: nat)
    ensures |Dots(n)| == n
  {
    if n > 0 { DotsLength(n - 1); }
  }

  lemma {:induction false} LongerThanAll(names: set<string>) returns (n: nat)
    ensures forall s :: s in names ==> |s| < n
  {
    if names == {} {
      n := 0;
    } else {
      var s :| s in names;
      var m := LongerThanAll(names - {s});
      n := if m > |s| then m else |s| + 1;
    }
  }

  /** There is always a name that starts so and is not taken. */
  lemma FreshBehind(prefix: string, names: set<string>) returns (t: string)
    ensures prefix <= t && t !in names
  {
    var n := LongerThanAll(names);
    t := prefix + Dots(n);
    DotsLength(n);
  }
}
