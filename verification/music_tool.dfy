/**
 * The player's tool module: choosing the next track, rendering a play time
 * as `MM:SS`, and reading the lyric text returned by the lyric service into
 * two parallel lists, the lines to display and their time stamps.
 */
module MusicTool {
  import opened Wrappers
  import opened JsText

  // The play orders (MODELLIST), play sources (PLAYTYPE) and lyric display
  // modes (LYRICTYPE), as the strings the player stores.
  const RANDOM: string := "RANDOM"
  const LISTLOOP: string := "LISTLOOP"
  const SINGLECYCLE: string := "SINGLECYCLE"
  const CUSTOM: string := "CUSTOM"
  const TOP: string := "TOP"
  const COMMON: string := "COMMON"
  const SPECIAL: string := "SPECIAL"

  // ---------------------------------------------------------------------------
  // Track sequencing
  // ---------------------------------------------------------------------------

  /** `returnRandomNoRepeat(index, len)`, where `draw` is the value of
      `Math.floor(Math.random() * len)`. On a collision the source calls itself
      again without `len` and discards that call's result, so the outcome is
      `undefined` (`None`). */
  function ReturnRandomNoRepeat(index: int, len: nat, draw: int): (r: Option<int>)
    ensures len == 1 ==> r == Some(index)
    ensures len != 1 ==> (r.Some? <==> draw != index) && (r.Some? ==> r.value == draw)
  {
    if len == 1 then Some(index)
    else if draw == index then None
    else Some(draw)
  }

  /** `getNextMusic(len, index, playType, isPlayNext)`. `newIndex` starts at 0
      and the switch has no default, so an unrecognised play order gives 0. In
      the random branch the retry is reached only when the first call returned
      `index`, which happens only for `len == 1`, where no number is drawn. */
  function GetNextMusic(len: nat, index: int, playModel: string, isPlayNext: bool, draw: int): (r: Option<int>)
    ensures r.None? ==> playModel == RANDOM && len != 1 && draw == index
    ensures 0 <= index < len && playModel != RANDOM ==> r.Some? && 0 <= r.value < len
    ensures 0 <= index < len && 0 <= draw < len && r.Some? ==> 0 <= r.value < len
  {
    if playModel == RANDOM then
      var newIndex := ReturnRandomNoRepeat(index, len, draw);
      if newIndex == Some(index) then ReturnRandomNoRepeat(index, len, draw) else newIndex
    else if playModel == LISTLOOP then
      if isPlayNext then
        if index == len - 1 then Some(0)
        else if index != -1 then Some(index + 1)
        else Some(0)
      else
        if index == 0 then Some(len - 1)
        else if index != -1 then Some(index - 1)
        else Some(0)
    else if playModel == SINGLECYCLE then Some(index)
    else Some(0)
  }

  /** Repeat-one keeps the current index, whatever the list. */
  lemma SingleCycleRepeats(len: nat, index: int, isPlayNext: bool, draw: int)
    ensures GetNextMusic(len, index, SINGLECYCLE, isPlayNext, draw) == Some(index)
  {
  }

  /** List loop forward: wraps from the last index and from "none" (-1) to 0,
      and otherwise steps up by one; inside the list it is the successor
      modulo the length. */
  lemma ListLoopForward(len: nat, index: int, draw: int)
    ensures var r := GetNextMusic(len, index, LISTLOOP, true, draw);
      && (index == len - 1 ==> r == Some(0))
      && (index == -1 ==> r == Some(0))
      && (index != len - 1 && index != -1 ==> r == Some(index + 1))
      && (0 <= index < len ==> r == Some((index + 1) % len) && 0 <= r.value < len)
  {
  }

  /** List loop backward: wraps from index 0 to the last index, maps "none"
      (-1) to 0, and otherwise steps down by one; inside the list it is the
      predecessor modulo the length. */
  lemma ListLoopBackward(len: nat, index: int, draw: int)
    ensures var r := GetNextMusic(len, index, LISTLOOP, false, draw);
      && (index == 0 ==> r == Some(len - 1))
      && (index == -1 ==> r == Some(0))
      && (index != 0 && index != -1 ==> r == Some(index - 1))
      && (0 <= index < len ==> r == Some((index - 1) % len) && 0 <= r.value < len)
  {
  }

  /** A play order outside RANDOM, LISTLOOP and SINGLECYCLE always gives 0. */
  lemma UnrecognisedOrderGivesZero(len: nat, index: int, playModel: string, isPlayNext: bool, draw: int)
    requires playModel != RANDOM && playModel != LISTLOOP && playModel != SINGLECYCLE
    ensures GetNextMusic(len, index, playModel, isPlayNext, draw) == Some(0)
  {
  }

  /** Random order on a one-track list keeps the current index. */
  lemma RandomSingleTrack(index: int, isPlayNext: bool, draw: int)
    ensures GetNextMusic(1, index, RANDOM, isPlayNext, draw) == Some(index)
  {
  }

  /** Random order on a longer list never repeats the current track: a
      result exists exactly when the draw differs from the current index,
      and it is then the draw, a valid index other than the current one. A
      collision yields no index at all. */
  lemma RandomNeverRepeats(len: nat, index: int, isPlayNext: bool, draw: int)
    requires len >= 2 && 0 <= draw < len
    ensures var r := GetNextMusic(len, index, RANDOM, isPlayNext, draw);
      && (r.Some? <==> draw != index)
      && (r.Some? ==> r.value == draw && 0 <= r.value < len && r.value != index)
  {
  }

  // ---------------------------------------------------------------------------
  // Time display
  // ---------------------------------------------------------------------------

  /** `addZero(time)`: a "0" in front of the numbers 0 to 9. The source returns
      other numbers unconverted; the template literal that uses the result
      turns them into their decimal text, which is what this returns. */
  function AddZero(time: int): (r: string)
    ensures |r| >= 2
    ensures r[0] == '0' <==> 0 <= time < 10
  {
    if 0 <= time < 10 then "0" + NumberToString(time)
    else
      assert time >= 10 ==> Decimal(time) == Decimal(time / 10) + [DigitChar(time % 10)];
      NumberToString(time)
  }

  /** A padded number is exactly two characters; a non-negative number comes
      out as digits that read back as the number; a negative one keeps its
      own text. */
  lemma AddZeroPads(time: int)
    ensures var r := AddZero(time);
      && (0 <= time < 10 ==> |r| == 2)
      && (time >= 0 ==> IsDigits(r) && DigitsValue(r) == time)
      && (time < 0 ==> r == "-" + Decimal(-time))
  {
    var r := AddZero(time);
    if 0 <= time < 10 {
      assert r == ['0', DigitChar(time)];
      assert r[..1] == "0";
    } else if time >= 10 {
      assert Decimal(time) == Decimal(time / 10) + [DigitChar(time % 10)];
    }
  }

  /** `calcMusicTime(time)` for a whole number of seconds: falsy (zero) input
      renders "00:00", anything else minutes and seconds, each padded. The
      zero branch renders what the general one would. */
  function CalcMusicTime(time: nat): (r: string)
    ensures r == AddZero(time / 60) + ":" + AddZero(time % 60)
    ensures |r| >= 5
  {
    if time == 0 then AddZero(0) + ":" + AddZero(0)
    else AddZero(time / 60) + ":" + AddZero(time % 60)
  }

  /** Reads a displayed time `M…M:SS` back into seconds. */
  function ClockSeconds(display: string): Option<nat>
  {
    var fields := Split(display, ':');
    if |fields| == 2 && IsDigits(fields[0]) && IsDigits(fields[1]) && |fields[1]| == 2 then
      Some(DigitsValue(fields[0]) * 60 + DigitsValue(fields[1]))
    else None
  }

  /** The display ends in ':' and a two-digit seconds field from 00 to 59,
      and reading it back gives the number of seconds rendered. */
  lemma CalcMusicTimeRoundTrip(time: nat)
    ensures var r := CalcMusicTime(time);
      && r[|r| - 3] == ':'
      && '0' <= r[|r| - 2] <= '5' && IsDigit(r[|r| - 1])
      && ClockSeconds(r) == Some(time)
  {
    var minutes, seconds := AddZero(time / 60), AddZero(time % 60);
    var r := minutes + ":" + seconds;
    assert IsDigits(minutes) && |minutes| >= 2 by {
      AddZeroPads(time / 60);
    }
    assert |seconds| == 2 && IsDigits(seconds) && DigitsValue(seconds) == time % 60 by {
      AddZeroPads(time % 60);
      if time % 60 >= 10 {
        assert Decimal(time % 60) == Decimal(time % 60 / 10) + [DigitChar(time % 60 % 10)];
      }
    }
    assert '0' <= seconds[0] <= '5' by {
      assert seconds[..1] == [seconds[0]];
      assert DigitsValue(seconds) == (seconds[0] as int - '0' as int) * 10 + (seconds[1] as int - '0' as int);
    }
    assert r[|r| - 3] == ':' && r[|r| - 2] == seconds[0] && r[|r| - 1] == seconds[1];
    assert Split(r, ':') == [minutes, seconds] by {
      DigitsExclude(minutes, ':');
      DigitsExclude(seconds, ':');
      assert Join([minutes, seconds], ':') == r by {
        assert [minutes, seconds][1..] == [seconds];
      }
      JoinThenSplit([minutes, seconds], ':');
    }
    assert DigitsValue(minutes) == time / 60 by {
      AddZeroPads(time / 60);
    }
  }

  /** Two rendered values: 65 seconds and the falsy zero. */
  lemma CalcMusicTimeExamples()
    ensures CalcMusicTime(65) == "01:05"
    ensures CalcMusicTime(0) == "00:00"
  {
    assert Decimal(1) == "1" && Decimal(5) == "5" && Decimal(0) == "0";
  }

  // ---------------------------------------------------------------------------
  // Lyric parsing
  // ---------------------------------------------------------------------------

  /** A lyric time stamp in milliseconds, or NaN where the source's arithmetic
      on a non-numeric field gives NaN. */
  datatype Stamp = Ms(ms: int) | NaN

  /** One kept lyric line: its display text and its time stamp. */
  datatype LyricLine = LyricLine(text: string, time: Stamp)

  /** The time stamp computed from the part of a line before its first `]`:
      the first `[` is removed, the rest is split on `:`, and the first two
      fields are read as minutes and seconds (minutes·60000 + seconds·1000).
      Thousandths of a minute times 60 are milliseconds. */
  function LineStamp(head: string): (r: Stamp)
    ensures r.Ms? ==> r.ms >= 0
  {
    var timeArr := Split(RemoveFirst(head, '['), ':');
    var minutes := NumberThousandths(timeArr[0]);
    var seconds := if |timeArr| >= 2 then NumberThousandths(timeArr[1]) else None;
    if minutes.Some? && seconds.Some? then Ms(minutes.value * 60 + seconds.value) else NaN
  }

  /** A tag `[mm:sec` with digit minutes is mm·60000 plus the seconds field
      read as a number times 1000, or NaN when that field is not a number. */
  lemma LineStampFields(mm: string, sec: string)
    requires IsDigits(mm) && ':' !in sec
    ensures LineStamp("[" + mm + ":" + sec)
         == match NumberThousandths(sec)
            case Some(v) => Ms(DigitsValue(mm) * 60000 + v)
            case None => NaN
  {
    var head := "[" + mm + ":" + sec;
    assert RemoveFirst(head, '[') == mm + ":" + sec by {
      assert head[0] == '[' && head[1..] == mm + ":" + sec;
    }
    assert Split(mm + ":" + sec, ':') == [mm, sec] by {
      DigitsExclude(mm, ':');
      assert Join([mm, sec], ':') == mm + ":" + sec by {
        assert [mm, sec][1..] == [sec];
      }
      JoinThenSplit([mm, sec], ':');
    }
    assert NumberThousandths(mm) == Some(DigitsValue(mm) * 1000);
    assert DigitsValue(mm) * 1000 * 60 == DigitsValue(mm) * 60000;
  }

  /** The usual tag `[mm:ss.xx`: minutes·60000 + seconds·1000 with the
      fraction of a second included (`ss.xx` in thousandths). */
  lemma StampOfTimeTag(mm: string, ss: string, frac: string)
    requires IsDigits(mm) && IsDigits(ss) && IsDigits(frac)
    requires |frac| <= 3 && |ss| + |frac| >= 1
    ensures LineStamp("[" + mm + ":" + (ss + "." + frac)) == Ms(DigitsValue(mm) * 60000 + DecimalThousandths(ss, frac))
  {
    var sec := ss + "." + frac;
    assert ':' !in sec by {
      DigitsExclude(ss, ':');
      DigitsExclude(frac, ':');
    }
    NumberOfFraction(ss, frac);
    LineStampFields(mm, sec);
  }

  /** A head without `:` has no seconds field, so its stamp is NaN. */
  lemma LineStampNeedsColon(head: string)
    requires ':' !in head
    ensures LineStamp(head) == NaN
  {
    var stripped := RemoveFirst(head, '[');
    assert ':' !in stripped by {
      RemoveFirstCutsFirst(head, '[');
      var i := IndexOf(head, '[');
      if i != -1 {
        assert head == head[..i] + [head[i]] + head[i + 1..];
      }
    }
    JoinThenSplit([stripped], ':');
  }

  /** One iteration of the `forEach` in `getLyric`: the line is split on `]`;
      it is kept when both the part before the first `]` and the part after
      it (up to the next `]`) are non-empty. */
  function ParseLine(v: string): (r: Option<LyricLine>)
    ensures r.Some? ==> r.value.text != "" && (r.value.time.Ms? ==> r.value.time.ms >= 0)
  {
    var arr := Split(v, ']');
    if |arr| >= 2 && arr[1] != "" && arr[0] != "" then Some(LyricLine(arr[1], LineStamp(arr[0])))
    else None
  }

  /** A line is kept exactly when it has a `]` that is neither its first
      character nor followed by the end of the line or another `]`. The kept
      text is the non-empty run after the first `]` up to the next `]` or the
      end of the line, and the stamp comes from what precedes the first `]`. */
  lemma ParseLineKeeps(v: string)
    ensures var i := IndexOf(v, ']');
      && (ParseLine(v).Some? <==> 0 < i && i + 1 < |v| && v[i + 1] != ']')
      && (ParseLine(v).Some? ==>
            var text := ParseLine(v).value.text;
            && ParseLine(v).value.time == LineStamp(v[..i])
            && text != "" && ']' !in text
            && text <= v[i + 1..]
            && (|text| == |v| - i - 1 || v[i + 1 + |text|] == ']'))
  {
    SplitPiecesFree(v, ']');
    if ']' in v {
      var i := IndexOf(v, ']');
      SplitAtFirst(v, ']');
      SplitHead(v[i + 1..], ']');
    } else {
      JoinThenSplit([v], ']');
    }
  }

  /** The positions holding `true`, in increasing order. */
  function Positions(flags: seq<bool>): (kept: seq<nat>)
    ensures |kept| <= |flags|
    ensures forall k :: 0 <= k < |kept| ==> kept[k] < |flags| && flags[kept[k]]
    ensures forall k, l :: 0 <= k < l < |kept| ==> kept[k] < kept[l]
    ensures forall i :: 0 <= i < |flags| && flags[i] ==> i in kept
    decreases |flags|
  {
    if flags == [] then []
    else
      var last := |flags| - 1;
      var kept := Positions(flags[..last]);
      assert forall i :: 0 <= i < last ==> flags[..last][i] == flags[i];
      if flags[last] then kept + [last] else kept
  }

  /** Looking at one more flag appends its position when it is set. */
  lemma PositionsStep(flags: seq<bool>, i: nat)
    requires i < |flags|
    ensures Positions(flags[..i + 1]) == Positions(flags[..i]) + (if flags[i] then [i] else [])
  {
    assert flags[..i + 1][..i] == flags[..i];
  }

  /** For each line, whether the loop keeps it. */
  function KeepFlags(lines: seq<string>): (flags: seq<bool>)
    ensures |flags| == |lines|
  {
    seq(|lines|, i requires 0 <= i < |lines| => ParseLine(lines[i]).Some?)
  }

  /** The positions of the kept lines, in increasing order: exactly the lines
      that `ParseLine` keeps. */
  function KeptIndices(lines: seq<string>): (kept: seq<nat>)
    ensures |kept| <= |lines|
    ensures forall k :: 0 <= k < |kept| ==> kept[k] < |lines| && ParseLine(lines[kept[k]]).Some?
    ensures forall k, l :: 0 <= k < l < |kept| ==> kept[k] < kept[l]
    ensures forall i :: 0 <= i < |lines| && ParseLine(lines[i]).Some? ==> i in kept
  {
    var flags := KeepFlags(lines);
    var kept := Positions(flags);
    assert forall k :: 0 <= k < |kept| ==> flags[kept[k]];
    assert forall i :: 0 <= i < |lines| && flags[i] ==> i in kept;
    kept
  }

  /** The two lists the loop of `getLyric` builds from `lines`: the text and
      the stamp of every kept line, in line order. */
  function LyricLists(lines: seq<string>): (r: (seq<string>, seq<Stamp>))
    ensures |r.0| == |r.1| <= |lines|
    decreases |lines|
  {
    if lines == [] then ([], [])
    else
      var last := |lines| - 1;
      var (texts, times) := LyricLists(lines[..last]);
      match ParseLine(lines[last])
      case Some(line) => (texts + [line.text], times + [line.time])
      case None => (texts, times)
  }

  /** Entry k of the two lists is the text and the stamp of the k-th kept line. */
  lemma {:induction false} LyricListsOfKept(lines: seq<string>)
    ensures var (texts, times) := LyricLists(lines);
      var kept := KeptIndices(lines);
      && |texts| == |kept| && |times| == |kept|
      && forall k :: 0 <= k < |kept| ==> ParseLine(lines[kept[k]]) == Some(LyricLine(texts[k], times[k]))
    decreases |lines|
  {
    if lines != [] {
      var last := |lines| - 1;
      var prefix := lines[..last];
      LyricListsOfKept(prefix);
      var flags := KeepFlags(lines);
      assert KeepFlags(prefix) == flags[..last];
      PositionsStep(flags, last);
      assert flags[..last + 1] == flags;
      var kept, before := KeptIndices(lines), KeptIndices(prefix);
      assert kept == before + (if flags[last] then [last] else []);
      forall k | 0 <= k < |before|
        ensures kept[k] == before[k] && lines[kept[k]] == prefix[before[k]]
      {
      }
    }
  }

  /** The parsing loop of `getLyric`: the text is split into lines, and every
      kept line pushes its stamp onto `lyricTimeList` and its text onto
      `lyricList`. The two lists have one entry per kept line, in line order. */
  method GetLyric(lyric: string) returns (lyricList: seq<string>, lyricTimeList: seq<Stamp>)
    ensures (lyricList, lyricTimeList) == LyricLists(Split(lyric, '\n'))
    ensures var lines := Split(lyric, '\n');
      var kept := KeptIndices(lines);
      && |lyricList| == |kept| && |lyricTimeList| == |kept|
      && forall k :: 0 <= k < |kept| ==>
           ParseLine(lines[kept[k]]) == Some(LyricLine(lyricList[k], lyricTimeList[k]))
  {
    var lyricArr := Split(lyric, '\n');
    lyricList, lyricTimeList := [], [];
    var i := 0;
    while i < |lyricArr|
      invariant 0 <= i <= |lyricArr|
      invariant (lyricList, lyricTimeList) == LyricLists(lyricArr[..i])
    {
      assert lyricArr[..i + 1][..i] == lyricArr[..i];
      match ParseLine(lyricArr[i]) {
        case Some(line) =>
          lyricTimeList := lyricTimeList + [line.time];
          lyricList := lyricList + [line.text];
        case None =>
      }
      i := i + 1;
    }
    assert lyricArr[..i] == lyricArr;
    LyricListsOfKept(lyricArr);
  }

  /** Every kept text is non-empty, and a line without any `]` is dropped. */
  lemma KeptTextsNonEmpty(lines: seq<string>)
    ensures forall k :: 0 <= k < |KeptIndices(lines)| ==>
      ParseLine(lines[KeptIndices(lines)[k]]).value.text != ""
    ensures forall i :: 0 <= i < |lines| && ']' !in lines[i] ==> i !in KeptIndices(lines)
  {
    forall i | 0 <= i < |lines| && ']' !in lines[i]
      ensures i !in KeptIndices(lines)
    {
      ParseLineKeeps(lines[i]);
    }
    forall k | 0 <= k < |KeptIndices(lines)|
      ensures ParseLine(lines[KeptIndices(lines)[k]]).value.text != ""
    {
      ParseLineKeeps(lines[KeptIndices(lines)[k]]);
    }
  }

  /** The two lines "[00:01.00]Hello" and "[00:02.50]World" are both kept,
      with the texts "Hello" and "World" at 1000 ms and 2500 ms. */
  lemma LyricExample(lyric: string, first: string, second: string)
    requires first == "[00:01.00]Hello" && second == "[00:02.50]World"
    requires lyric == first + "\n" + second
    ensures var lines := Split(lyric, '\n');
      && KeptIndices(lines) == [0, 1]
      && ParseLine(lines[0]) == Some(LyricLine("Hello", Ms(1000)))
      && ParseLine(lines[1]) == Some(LyricLine("World", Ms(2500)))
  {
    ExampleHello(first);
    ExampleWorld(second);
    TwoKeptLines(first, second);
  }

  // Two kept lines joined by a line break are both kept, in order.
  lemma TwoKeptLines(first: string, second: string)
    requires '\n' !in first && '\n' !in second
    requires ParseLine(first).Some? && ParseLine(second).Some?
    ensures Split(first + "\n" + second, '\n') == [first, second]
    ensures KeptIndices([first, second]) == [0, 1]
  {
    var lines := [first, second];
    assert Join(lines, '\n') == first + "\n" + second by {
      assert lines[1..] == [second];
    }
    JoinThenSplit(lines, '\n');
    assert lines[..1] == [first] && [first][..0] == [];
  }

  lemma ExampleHello(line: string)
    requires line == "[00:01.00]Hello"
    ensures '\n' !in line && ParseLine(line) == Some(LyricLine("Hello", Ms(1000)))
  {
    ExampleLine(line, "01", "00", "Hello");
    assert DigitsValue("01") == 1 && DigitsValue("00") == 0 by {
      assert "01"[..1] == "0" && "00"[..1] == "0" && "0"[..0] == "";
    }
  }

  lemma ExampleWorld(line: string)
    requires line == "[00:02.50]World"
    ensures '\n' !in line && ParseLine(line) == Some(LyricLine("World", Ms(2500)))
  {
    ExampleLine(line, "02", "50", "World");
    assert DigitsValue("02") == 2 by {
      assert "02"[..1] == "0" && "0"[..0] == "";
    }
    assert DigitsValue("50") == 50 by {
      assert "50"[..1] == "5" && "5"[..0] == "";
    }
  }

  // One line `[00:ss.frac]text` of the example, without a line break in it.
  lemma ExampleLine(line: string, ss: string, frac: string, text: string)
    requires |ss| == 2 && |frac| == 2 && IsDigits(ss) && IsDigits(frac)
    requires text != "" && ']' !in text && '\n' !in text
    requires line == "[00:" + ss + "." + frac + "]" + text
    ensures '\n' !in line
    ensures ParseLine(line) == Some(LyricLine(text, Ms(DigitsValue(ss) * 1000 + DigitsValue(frac) * 10)))
  {
    var zero := "00";
    assert '\n' !in line by {
      DigitsExclude(ss, '\n');
      DigitsExclude(frac, '\n');
    }
    assert ParseLine(line) == Some(LyricLine(text, Ms(DigitsValue(zero) * 60000 + DecimalThousandths(ss, frac)))) by {
      assert line == "[" + zero + ":" + ss + "." + frac + "]" + text;
      LineOf(zero, ss, frac, text);
    }
    assert DigitsValue(zero) == 0 by {
      assert zero[..1] == "0" && "0"[..0] == "";
    }
    assert DecimalThousandths(ss, frac) == DigitsValue(ss) * 1000 + DigitsValue(frac) * 10 by {
      assert Pow10(1) == 10;
    }
  }

  /** A line `[mm:ss.xx]text` with a non-empty, `]`-free text is kept with
      that text and the stamp of its tag. */
  lemma LineOf(mm: string, ss: string, frac: string, text: string)
    requires IsDigits(mm) && IsDigits(ss) && IsDigits(frac)
    requires |frac| <= 3 && |ss| + |frac| >= 1
    requires text != "" && ']' !in text
    ensures ParseLine("[" + mm + ":" + ss + "." + frac + "]" + text)
         == Some(LyricLine(text, Ms(DigitsValue(mm) * 60000 + DecimalThousandths(ss, frac))))
  {
    var head := "[" + mm + ":" + (ss + "." + frac);
    assert "[" + mm + ":" + ss + "." + frac + "]" + text == head + "]" + text;
    assert ']' !in head by {
      DigitsExclude(mm, ']');
      DigitsExclude(ss, ']');
      DigitsExclude(frac, ']');
    }
    assert Join([head, text], ']') == head + "]" + text by {
      assert [head, text][1..] == [text];
    }
    JoinThenSplit([head, text], ']');
    StampOfTimeTag(mm, ss, frac);
  }
}
