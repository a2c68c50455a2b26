/**
 * The JavaScript string and number primitives the music player relies on:
 * `indexOf`, `split` and `replace` with a one-character pattern, the decimal
 * rendering of a non-negative integer and `Number(string)`.
 * Strings are sequences of characters; nothing here depends on an encoding.
 */
module JsText {
  import opened Wrappers

  /** `s.indexOf(c)`: the first position of `c` in `s`, or -1 when there is none. */
  function IndexOf(s: string, c: char): (i: int)
    ensures -1 <= i < |s|
    ensures 0 <= i ==> s[i] == c
    decreases |s|
  {
    if s == [] then -1
    else if s[0] == c then 0
    else
      var k := IndexOf(s[1..], c);
      if k == -1 then -1 else k + 1
  }

  /** `IndexOf` is -1 exactly when the character is absent, and otherwise no
      earlier position holds it. */
  lemma {:induction false} IndexOfFirst(s: string, c: char)
    ensures IndexOf(s, c) == -1 <==> c !in s
    ensures 0 <= IndexOf(s, c) ==> c !in s[..IndexOf(s, c)]
    decreases |s|
  {
    if s != [] && s[0] != c {
      IndexOfFirst(s[1..], c);
      assert s == [s[0]] + s[1..];
      var k := IndexOf(s[1..], c);
      if k != -1 {
        assert s[..k + 1] == [s[0]] + s[1..][..k];
      }
    }
  }

  /** `s.split(sep)` for a one-character separator: the pieces between the
      separators, in order; there is always at least one piece. */
  function Split(s: string, sep: char): (parts: seq<string>)
    ensures |parts| >= 1
    decreases |s|
  {
    if s == [] then [""]
    else
      var rest := Split(s[1..], sep);
      if s[0] == sep then [""] + rest
      else [[s[0]] + rest[0]] + rest[1..]
  }

  /** No piece of a split holds the separator. */
  lemma {:induction false} SplitPiecesFree(s: string, sep: char)
    ensures forall k :: 0 <= k < |Split(s, sep)| ==> sep !in Split(s, sep)[k]
    decreases |s|
  {
    if s != [] {
      SplitPiecesFree(s[1..], sep);
    }
  }

  /** `parts.join(sep)`, the inverse of `Split`. */
  function Join(parts: seq<string>, sep: char): string
    requires |parts| >= 1
    decreases |parts|
  {
    if |parts| == 1 then parts[0] else parts[0] + [sep] + Join(parts[1..], sep)
  }

  /** Joining the pieces of a split gives back the original string. */
  lemma {:induction false} SplitThenJoin(s: string, sep: char)
    ensures Join(Split(s, sep), sep) == s
    decreases |s|
  {
    if s != [] {
      var rest := Split(s[1..], sep);
      SplitThenJoin(s[1..], sep);
      var parts := Split(s, sep);
      if s[0] == sep {
        assert parts == [""] + rest;
        assert parts[1..] == rest;
      } else {
        assert parts == [[s[0]] + rest[0]] + rest[1..];
        assert parts[1..] == rest[1..];
        if |rest| > 1 {
          assert Join(rest, sep) == rest[0] + [sep] + Join(rest[1..], sep);
        }
      }
    }
  }

  /** Splitting a string whose head holds no separator extends the first piece. */
  lemma {:induction false} SplitPrepend(a: string, t: string, sep: char)
    requires sep !in a
    ensures Split(a + t, sep) == [a + Split(t, sep)[0]] + Split(t, sep)[1..]
    decreases |a|
  {
    if a != [] {
      var pieces := Split(t, sep);
      SplitPrepend(a[1..], t, sep);
      assert (a + t)[1..] == a[1..] + t;
      assert (a + t)[0] == a[0];
      var rest := Split(a[1..] + t, sep);
      assert Split(a + t, sep) == [[a[0]] + rest[0]] + rest[1..];
      assert rest[0] == a[1..] + pieces[0];
      assert rest[1..] == pieces[1..];
      assert a == [a[0]] + a[1..];
      assert [a[0]] + (a[1..] + pieces[0]) == a + pieces[0];
    } else {
      var pieces := Split(t, sep);
      assert a + t == t && a + pieces[0] == pieces[0];
      assert pieces == [pieces[0]] + pieces[1..];
    }
  }

  /** Splitting the join of separator-free pieces gives back the pieces. */
  lemma {:induction false} JoinThenSplit(parts: seq<string>, sep: char)
    requires |parts| >= 1
    requires forall k :: 0 <= k < |parts| ==> sep !in parts[k]
    ensures Split(Join(parts, sep), sep) == parts
    decreases |parts|
  {
    if |parts| == 1 {
      SplitPrepend(parts[0], "", sep);
      assert parts[0] + "" == parts[0];
    } else {
      var tail := Join(parts[1..], sep);
      JoinThenSplit(parts[1..], sep);
      assert Join(parts, sep) == parts[0] + ([sep] + tail);
      SplitPrepend(parts[0], [sep] + tail, sep);
      assert ([sep] + tail)[1..] == tail;
      var after := Split([sep] + tail, sep);
      assert after == [""] + parts[1..];
      assert after[0] == "" && after[1..] == parts[1..];
      assert parts[0] + "" == parts[0];
      assert parts == [parts[0]] + parts[1..];
    }
  }

  /** The first piece of a split is the text before the first separator, and
      the remaining pieces are the split of the text after it. */
  lemma SplitAtFirst(s: string, sep: char)
    requires sep in s
    ensures var i := IndexOf(s, sep);
      0 <= i && Split(s, sep) == [s[..i]] + Split(s[i + 1..], sep)
  {
    IndexOfFirst(s, sep);
    var i := IndexOf(s, sep);
    var head, rest := s[..i], s[i + 1..];
    assert s == head + ([sep] + rest);
    assert Split([sep] + rest, sep) == [""] + Split(rest, sep) by {
      assert ([sep] + rest)[1..] == rest;
    }
    SplitPrepend(head, [sep] + rest, sep);
    assert head + "" == head;
  }

  /** The first piece of a split is the longest separator-free prefix: it is
      all of `t` or stops at a separator, and it is empty exactly when `t` is
      empty or starts with the separator. */
  lemma {:induction false} SplitHead(t: string, sep: char)
    ensures var p := Split(t, sep)[0];
      p <= t && (|p| == |t| || t[|p|] == sep) && (p == "" <==> (t == [] || t[0] == sep))
    decreases |t|
  {
    if t != [] && t[0] != sep {
      SplitHead(t[1..], sep);
    }
  }

  /** `s.replace(c, "")` with a one-character string pattern: removes the first
      occurrence of `c` only. */
  function RemoveFirst(s: string, c: char): (r: string)
    ensures |s| - 1 <= |r| <= |s|
    decreases |s|
  {
    if s == [] then s
    else if s[0] == c then s[1..]
    else [s[0]] + RemoveFirst(s[1..], c)
  }

  /** `RemoveFirst` cuts out the first occurrence and keeps everything else;
      without an occurrence the text is unchanged. */
  lemma {:induction false} RemoveFirstCutsFirst(s: string, c: char)
    ensures var i := IndexOf(s, c);
      && (i == -1 ==> RemoveFirst(s, c) == s)
      && (i != -1 ==> RemoveFirst(s, c) == s[..i] + s[i + 1..])
    decreases |s|
  {
    if s != [] && s[0] != c {
      RemoveFirstCutsFirst(s[1..], c);
      assert s == [s[0]] + s[1..];
      var k := IndexOf(s[1..], c);
      if k != -1 {
        assert s[..k + 1] == [s[0]] + s[1..][..k];
        assert s[k + 2..] == s[1..][k + 1..];
      }
    }
  }

  predicate IsDigit(ch: char) { '0' <= ch <= '9' }

  predicate IsDigits(s: string) { forall k :: 0 <= k < |s| ==> IsDigit(s[k]) }

  /** A string of digits holds no non-digit character. */
  lemma DigitsExclude(s: string, c: char)
    requires IsDigits(s) && !IsDigit(c)
    ensures c !in s
  {
    assert forall k :: 0 <= k < |s| ==> s[k] != c;
  }

  /** The value of a string of decimal digits ("" reads as 0). */
  function DigitsValue(s: string): nat
    requires IsDigits(s)
    decreases |s|
  {
    if s == [] then 0 else DigitsValue(s[..|s| - 1]) * 10 + (s[|s| - 1] as int - '0' as int)
  }

  function DigitChar(d: nat): (ch: char)
    requires d < 10
    ensures IsDigit(ch) && ch as int - '0' as int == d
  {
    ('0' as int + d) as char
  }

  /** `String(n)` for a non-negative integer: its decimal digits, without
      leading zeros, reading back as `n`. */
  function Decimal(n: nat): (s: string)
    ensures |s| >= 1 && IsDigits(s)
    ensures (s[0] == '0') == (n == 0)
    ensures DigitsValue(s) == n
    decreases n
  {
    if n < 10 then [DigitChar(n)]
    else
      var high := Decimal(n / 10);
      var s := high + [DigitChar(n % 10)];
      assert s[..|s| - 1] == high;
      s
  }

  /** `String(x)` for any integer. */
  function NumberToString(x: int): (s: string)
    ensures x >= 0 ==> s == Decimal(x)
    ensures x < 0 ==> s == "-" + Decimal(-x) && |s| >= 2 && s[0] == '-'
  {
    if x < 0 then "-" + Decimal(-x) else Decimal(x)
  }

  function Pow10(k: nat): nat
  {
    if k == 0 then 1 else 10 * Pow10(k - 1)
  }

  /** `Number(s)` scaled by 1000, for the numeric forms a lyric time stamp
      uses: the empty string (which JavaScript reads as 0), digits, and digits
      with a fractional part of at most three digits. `None` stands for NaN. */
  function NumberThousandths(s: string): (r: Option<nat>)
    ensures s == [] ==> r == Some(0)
    ensures s != [] && IsDigits(s) ==> r == Some(DigitsValue(s) * 1000)
  {
    if s == [] then Some(0)
    else
      var parts := Split(s, '.');
      assert IsDigits(s) ==> parts == [s] by {
        if IsDigits(s) {
          DigitsExclude(s, '.');
          JoinThenSplit([s], '.');
        }
      }
      if |parts| == 1 && IsDigits(s) then Some(DigitsValue(s) * 1000)
      else if |parts| == 2 && |s| >= 2 && IsDigits(parts[0]) && IsDigits(parts[1]) && |parts[1]| <= 3 then
        Some(DecimalThousandths(parts[0], parts[1]))
      else None
  }

  /** The value of `whole.frac` in thousandths. */
  function DecimalThousandths(whole: string, frac: string): nat
    requires IsDigits(whole) && IsDigits(frac) && |frac| <= 3
  {
    DigitsValue(whole) * 1000 + DigitsValue(frac) * Pow10(3 - |frac|)
  }

  /** `whole.frac` is read as whole + frac/1000 scaled to thousandths. */
  lemma NumberOfFraction(whole: string, frac: string)
    requires IsDigits(whole) && IsDigits(frac) && |frac| <= 3 && |whole| + |frac| >= 1
    ensures NumberThousandths(whole + "." + frac) == Some(DecimalThousandths(whole, frac))
  {
    var s := whole + "." + frac;
    DigitsExclude(whole, '.');
    DigitsExclude(frac, '.');
    assert Join([whole, frac], '.') == s by {
      assert [whole, frac][1..] == [frac];
    }
    JoinThenSplit([whole, frac], '.');
    var parts := Split(s, '.');
    assert parts == [whole, frac];
    assert s != [] && |s| >= 2;
    assert |parts| == 2 && IsDigits(parts[0]) && IsDigits(parts[1]) && |parts[1]| <= 3;
  }
}
