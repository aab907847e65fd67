/**
 The LRC and enhanced-LRC parsers (crates/core/src/lyrics.rs): what a file parses to, printing and
 parsing back, stable ordering, and word timings cut out of a line's text.

 Times are unbounded naturals; the source's byte cursor is a character cursor here.
 */
module Lyrics {
  import opened Common
  import opened Text

  datatype Word = Word(text: string, startMs: nat, endMs: nat)
  datatype Line = Line(time: nat, text: string, words: Option<seq<Word>>)

  // ---- time tags -------------------------------------------------------------------------------

  function AsciiDigits(s: string): (d: string)
    ensures AllDigits(d)
  {
    if s == "" then ""
    else if IsDigit(s[0]) then
      var rest := AsciiDigits(s[1..]);
      assert forall c :: c in [s[0]] + rest ==> c == s[0] || c in rest;
      [s[0]] + rest
    else AsciiDigits(s[1..])
  }

  /** Up to three digits after the point, scaled to milliseconds. */
  function ParseFraction(f: string): Option<nat> {
    var all := AsciiDigits(f);
    var digits := if |all| > 3 then all[..3] else all;
    if digits == "" then None
    else Some(Value(digits) * (if |digits| == 1 then 100 else if |digits| == 2 then 10 else 1))
  }

  /** `ss`, `ss.xx` or `ss.xxx`, in milliseconds. */
  function ParseSeconds(rest: string): Option<nat> {
    match Find(rest, '.')
    case None =>
      var s := ParseU64(Trim(rest));
      if s.Some? then Some(s.value * 1000) else None
    case Some(point) =>
      var s, ms := ParseU64(Trim(rest[..point])), ParseFraction(rest[point + 1..]);
      if s.Some? && ms.Some? then Some(s.value * 1000 + ms.value) else None
  }

  /** `mm:ss`, `mm:ss.xx` or `mm:ss.xxx`. */
  function ParseTime(tag: string): Option<nat> {
    match Find(tag, ':')
    case None => None
    case Some(colon) =>
      var m, s := ParseU64(Trim(tag[..colon])), ParseSeconds(tag[colon + 1..]);
      if m.Some? && s.Some? then Some(m.value * 60_000 + s.value) else None
  }

  // ---- one raw line ----------------------------------------------------------------------------

  /** The leading timestamp of a text, and the rest after it. */
  function LeadingTime(text: string): (r: Option<(nat, string)>)
    ensures r.Some? ==> |r.value.1| < |text|
  {
    if text == "" || text[0] != '[' then None
    else
      match Find(text[1..], ']')
      case None => None
      case Some(end) =>
        match ParseTime(text[1..][..end])
        case None => None
        case Some(ms) =>
          TrimStartFacts(text[1..][end + 1..]);
          Some((ms, TrimStart(text[1..][end + 1..])))
  }

  function TakeTimes(text: string): (seq<nat>, string)
    decreases |text|
  {
    match LeadingTime(text)
    case None => ([], text)
    case Some((ms, rest)) =>
      var (times, left) := TakeTimes(rest);
      ([ms] + times, left)
  }

  function Cues(times: seq<nat>, text: string): (lines: seq<Line>)
    ensures |lines| == |times|
  {
    seq(|times|, i requires 0 <= i < |times| => Line(times[i], text, None))
  }

  function RawCues(raw: string): seq<Line> {
    var (times, text) := TakeTimes(Trim(raw));
    Cues(times, text)
  }

  // ---- the file --------------------------------------------------------------------------------

  /** The raw lines of a file; a carriage return before the break is left for trimming. */
  function RawLines(s: string): seq<string>
    decreases |s|
  {
    if s == "" then []
    else
      match Find(s, '\n')
      case None => [s]
      case Some(i) => [s[..i]] + RawLines(s[i + 1..])
  }

  function AllCues(raws: seq<string>): seq<Line> {
    if raws == [] then [] else AllCues(raws[..|raws| - 1]) + RawCues(raws[|raws| - 1])
  }

  /** Insert after every line that is not later: what a stable sort does with one more line. */
  function Insert(sorted: seq<Line>, l: Line): seq<Line> {
    if sorted != [] && sorted[|sorted| - 1].time > l.time
    then Insert(sorted[..|sorted| - 1], l) + [sorted[|sorted| - 1]]
    else sorted + [l]
  }

  function SortByTime(lines: seq<Line>): seq<Line> {
    if lines == [] then [] else Insert(SortByTime(lines[..|lines| - 1]), lines[|lines| - 1])
  }

  function Parse(lrc: string): seq<Line> {
    SortByTime(AllCues(RawLines(lrc)))
  }

  // ---- the sort is stable ----------------------------------------------------------------------

  ghost predicate Sorted(lines: seq<Line>) {
    forall i, j :: 0 <= i < j < |lines| ==> lines[i].time <= lines[j].time
  }

  /** The lines of one cue, in order. */
  function At(lines: seq<Line>, t: nat): seq<Line> {
    if lines == [] then []
    else
      var front, last := At(lines[..|lines| - 1], t), lines[|lines| - 1];
      if last.time == t then front + [last] else front
  }

  lemma AtAppend(a: seq<Line>, l: Line, t: nat)
    ensures At(a + [l], t) == if l.time == t then At(a, t) + [l] else At(a, t)
  {
    assert (a + [l])[..|a + [l]| - 1] == a;
  }

  lemma {:induction false} InsertKeeps(sorted: seq<Line>, l: Line)
    requires Sorted(sorted)
    ensures Sorted(Insert(sorted, l)) && |Insert(sorted, l)| == |sorted| + 1
    ensures forall x :: x in Insert(sorted, l) <==> x in sorted || x == l
    ensures forall t :: At(Insert(sorted, l), t) == At(sorted + [l], t)
  {
    if sorted != [] && sorted[|sorted| - 1].time > l.time {
      var front, last := sorted[..|sorted| - 1], sorted[|sorted| - 1];
      InsertKeeps(front, l);
      var r := Insert(sorted, l);
      assert sorted == front + [last];
      forall i, j | 0 <= i < j < |r| ensures r[i].time <= r[j].time {
        if j == |r| - 1 {
          assert r[i] in Insert(front, l);
        }
      }
      forall t ensures At(r, t) == At(sorted + [l], t) {
        AtAppend(Insert(front, l), last, t);
        AtAppend(sorted, l, t);
        AtAppend(front, l, t);
      }
    }
  }

  /** Sorted, and for every cue the same lines in the same order: a stable sort, and only that. */
  lemma {:induction false} SortIsStable(lines: seq<Line>)
    ensures Sorted(SortByTime(lines)) && |SortByTime(lines)| == |lines|
    ensures forall t :: At(SortByTime(lines), t) == At(lines, t)
  {
    if lines != [] {
      var front, last := lines[..|lines| - 1], lines[|lines| - 1];
      SortIsStable(front);
      var sorted := SortByTime(front);
      InsertKeeps(sorted, last);
      PrefixRest(lines, |front|);
      assert lines[|front|..] == [last];
      forall t ensures At(Insert(sorted, last), t) == At(lines, t) {
        AtAppend(sorted, last, t);
        AtAppend(front, last, t);
      }
    }
  }

  lemma {:induction false} SortKeepsMembers(lines: seq<Line>, x: Line)
    ensures x in SortByTime(lines) <==> x in lines
  {
    if lines != [] {
      var front, last := lines[..|lines| - 1], lines[|lines| - 1];
      SortKeepsMembers(front, x);
      SortIsStable(front);
      InsertKeeps(SortByTime(front), last);
      assert lines == front + [last];
    }
  }

  lemma {:induction false} SortedIsFixed(lines: seq<Line>)
    requires Sorted(lines)
    ensures SortByTime(lines) == lines
  {
    if lines != [] {
      var front, last := lines[..|lines| - 1], lines[|lines| - 1];
      SortedIsFixed(front);
      assert front != [] ==> front[|front| - 1] == lines[|lines| - 2] && lines[|lines| - 2].time <= last.time;
      assert lines == front + [last] == Insert(front, last);
    }
  }

  // ---- what parsing gives ----------------------------------------------------------------------

  /** A text a parsed line can hold: one trimmed line that does not begin with a timestamp. */
  predicate Plain(text: string) {
    '\n' !in text && Trimmed(text) && LeadingTime(text).None?
  }

  function TimesOf(raws: seq<string>): nat {
    if raws == [] then 0
    else TimesOf(raws[..|raws| - 1]) + |TakeTimes(Trim(raws[|raws| - 1])).0|
  }

  lemma {:induction false} TakeTimesLeavesPlain(text: string)
    requires Trimmed(text) && '\n' !in text
    ensures Plain(TakeTimes(text).1)
    decreases |text|
  {
    hide ParseTime, TrimStart;
    match LeadingTime(text)
    case None =>
    case Some((ms, rest)) =>
      var end := Find(text[1..], ']').value;
      var tail := text[1..][end + 1..];
      TrimStartFacts(tail);
      assert tail == text[end + 2..];
      assert rest == text[|text| - |rest|..];
      TakeTimesLeavesPlain(rest);
  }

  lemma {:induction false} RawLinesHaveNoBreaks(s: string)
    ensures forall raw :: raw in RawLines(s) ==> '\n' !in raw
    decreases |s|
  {
    if s != "" && Find(s, '\n').Some? {
      RawLinesHaveNoBreaks(s[Find(s, '\n').value + 1..]);
    }
  }

  lemma {:induction false} CuesOfRaws(raws: seq<string>)
    requires forall raw :: raw in raws ==> '\n' !in raw
    ensures |AllCues(raws)| == TimesOf(raws)
    ensures forall l :: l in AllCues(raws) ==> Plain(l.text) && l.words.None?
  {
    if raws != [] {
      var front, raw := raws[..|raws| - 1], raws[|raws| - 1];
      CuesOfRaws(front);
      TrimFacts(raw);
      TakeTimesLeavesPlain(Trim(raw));
    }
  }

  /**
   For any input: the result is stably sorted by cue, each raw line gives as many lines as it has
   leading timestamps, and every text is plain.
   */
  lemma ParseIsWellFormed(lrc: string)
    ensures Sorted(Parse(lrc)) && |Parse(lrc)| == TimesOf(RawLines(lrc))
    ensures forall t :: At(Parse(lrc), t) == At(AllCues(RawLines(lrc)), t)
    ensures forall l :: l in Parse(lrc) ==> Plain(l.text) && l.words.None?
  {
    RawLinesHaveNoBreaks(lrc);
    CuesOfRaws(RawLines(lrc));
    SortIsStable(AllCues(RawLines(lrc)));
    forall l | l in Parse(lrc) ensures l in AllCues(RawLines(lrc)) {
      SortKeepsMembers(AllCues(RawLines(lrc)), l);
    }
  }

  // ---- printing and parsing back ---------------------------------------------------------------

  /** Zero-padded decimal fields of a time. */
  function Field(n: nat, width: nat): (s: string)
    requires width > 0
    ensures s != "" && AllDigits(s) && Value(s) == n
    ensures width == 3 && n < 1000 ==> |s| == 3
  {
    Pad(Print(n), width)
  }

  function Join(m: nat, s: nat, ms: nat): string {
    Field(m, 2) + [':'] + (Field(s, 2) + ['.'] + Field(ms, 3))
  }

  function Stamp(t: nat): string {
    Join(t / 60_000, t / 1000 % 60, t % 1000)
  }

  function PrintLine(l: Line): string {
    ['['] + (Stamp(l.time) + [']'] + l.text)
  }

  function PrintAll(lines: seq<Line>): string {
    if lines == [] then "" else PrintLine(lines[0]) + ['\n'] + PrintAll(lines[1..])
  }

  lemma AsciiDigitsOf(s: string)
    requires AllDigits(s)
    ensures AsciiDigits(s) == s
  {
    if s != "" {
      assert s == [s[0]] + s[1..] && IsDigit(s[0]);
      AsciiDigitsOf(s[1..]);
    }
  }

  lemma DigitsParse(s: string)
    requires s != "" && AllDigits(s) && Value(s) <= U64_MAX
    ensures ParseU64(Trim(s)) == Some(Value(s))
  {
    DigitsAreTrimmed(s);
  }

  lemma FractionParses(ms: string)
    requires |ms| == 3 && AllDigits(ms)
    ensures ParseFraction(ms) == Some(Value(ms))
  {
    AsciiDigitsOf(ms);
  }

  lemma SecondsParse(s: string, ms: string)
    requires s != "" && AllDigits(s) && Value(s) <= U64_MAX && |ms| == 3 && AllDigits(ms)
    ensures ParseSeconds(s + ['.'] + ms) == Some(Value(s) * 1000 + Value(ms))
  {
    hide Find, Trim, ParseU64, ParseFraction, Value;
    DigitsLack(s, '.');
    Cut(s, '.', ms);
    DigitsParse(s);
    FractionParses(ms);
  }

  lemma TimeParses(m: string, rest: string, ms: nat)
    requires m != "" && AllDigits(m) && Value(m) <= U64_MAX && ParseSeconds(rest) == Some(ms)
    ensures ParseTime(m + [':'] + rest) == Some(Value(m) * 60_000 + ms)
  {
    hide Find, Trim, ParseU64, ParseSeconds, Value;
    DigitsLack(m, ':');
    Cut(m, ':', rest);
    DigitsParse(m);
  }

  lemma JoinParses(m: nat, s: nat, ms: nat)
    requires m <= U64_MAX && s < 60 && ms < 1000
    ensures ParseTime(Join(m, s, ms)) == Some(m * 60_000 + s * 1000 + ms)
  {
    hide ParseTime, ParseSeconds, Field;
    SecondsParse(Field(s, 2), Field(ms, 3));
    TimeParses(Field(m, 2), Field(s, 2) + ['.'] + Field(ms, 3), s * 1000 + ms);
  }

  lemma StampParses(t: nat)
    requires t <= U64_MAX
    ensures ParseTime(Stamp(t)) == Some(t)
  {
    hide ParseTime, Join;
    JoinParses(t / 60_000, t / 1000 % 60, t % 1000);
    TimeSplits(t);
  }

  lemma TimeSplits(t: nat)
    ensures t / 60_000 * 60_000 + t / 1000 % 60 * 1000 + t % 1000 == t
  {
    var secs := t / 1000;
    assert secs / 60 == t / 60_000;
    assert secs == secs / 60 * 60 + secs % 60;
  }

  lemma StampHolds(t: nat, c: char)
    requires c in Stamp(t)
    ensures IsDigit(c) || c == ':' || c == '.'
  {
    var m, s, ms := Field(t / 60_000, 2), Field(t / 1000 % 60, 2), Field(t % 1000, 3);
    assert c in m || c in s || c in ms || c == ':' || c == '.';
  }

  lemma PrintedIsTrimmed(l: Line)
    requires Trimmed(l.text)
    ensures Trim(PrintLine(l)) == PrintLine(l)
  {
    var head := ['['] + Stamp(l.time) + [']'];
    assert head[0] == '[' && head[|head| - 1] == ']';
    assert PrintLine(l) == head + l.text;
    hide Stamp, Trim, TrimEnd, TrimStart;
    TrimAfter(head, l.text);
    TrimEndOfTrimmed(l.text);
  }

  lemma PrintedLeadingTime(l: Line)
    requires Trimmed(l.text) && l.time <= U64_MAX
    ensures LeadingTime(PrintLine(l)) == Some((l.time, l.text))
  {
    var stamp, raw := Stamp(l.time), PrintLine(l);
    assert raw[1..] == stamp + [']'] + l.text;
    assert ']' !in stamp by { if ']' in stamp { StampHolds(l.time, ']'); } }
    Cut(stamp, ']', l.text);
    StampParses(l.time);
    TrimEndOfTrimmed(l.text);
  }

  lemma PrintedLineParses(l: Line)
    requires Plain(l.text) && l.time <= U64_MAX && l.words.None?
    ensures RawCues(PrintLine(l)) == [l]
  {
    hide LeadingTime, PrintLine, Trim;
    PrintedIsTrimmed(l);
    PrintedLeadingTime(l);
    OneTime(PrintLine(l), l.time, l.text);
  }

  lemma OneTime(raw: string, t: nat, text: string)
    requires LeadingTime(raw) == Some((t, text)) && LeadingTime(text).None?
    ensures TakeTimes(raw) == ([t], text) && Cues([t], text) == [Line(t, text, None)]
  {
    assert TakeTimes(text) == ([], text);
    assert [t] + [] == [t];
  }

  lemma TrimEndOfTrimmed(s: string)
    requires Trimmed(s)
    ensures TrimEnd(s) == s && TrimStart(s) == s
  {
  }

  lemma PrintedHasNoBreak(l: Line)
    requires Plain(l.text)
    ensures '\n' !in PrintLine(l)
  {
    hide LeadingTime, Stamp;
    if '\n' in Stamp(l.time) {
      StampHolds(l.time, '\n');
    }
  }

  function Printed(lines: seq<Line>): seq<string> {
    if lines == [] then [] else Printed(lines[..|lines| - 1]) + [PrintLine(lines[|lines| - 1])]
  }

  lemma {:induction false} PrintedHead(lines: seq<Line>)
    requires lines != []
    ensures Printed(lines) == [PrintLine(lines[0])] + Printed(lines[1..])
  {
    hide PrintLine;
    if |lines| > 1 {
      var front := lines[..|lines| - 1];
      PrintedHead(front);
      assert lines[1..][..|lines[1..]| - 1] == front[1..];
    } else {
      assert lines[..0] == [] && lines[1..] == [];
    }
  }

  lemma {:induction false} PrintedRawLines(lines: seq<Line>)
    requires forall l :: l in lines ==> Plain(l.text)
    ensures RawLines(PrintAll(lines)) == Printed(lines)
  {
    hide Find, PrintLine, Plain;
    if lines != [] {
      PrintedHead(lines);
      var l, rest := PrintLine(lines[0]), PrintAll(lines[1..]);
      PrintedHasNoBreak(lines[0]);
      Cut(l, '\n', rest);
      PrintedRawLines(lines[1..]);
    }
  }

  lemma {:induction false} PrintedCues(lines: seq<Line>)
    requires forall l :: l in lines ==> Plain(l.text) && l.time <= U64_MAX && l.words.None?
    ensures AllCues(Printed(lines)) == lines
  {
    hide RawCues, PrintLine, Plain;
    if lines != [] {
      var front, last := lines[..|lines| - 1], lines[|lines| - 1];
      PrintedCues(front);
      PrintedLineParses(last);
      PrefixStep(lines, |front|);
      assert Printed(lines)[..|Printed(front)|] == Printed(front);
    }
  }

  /** Printing and parsing back is the identity exactly on sorted lines with plain texts. */
  lemma RoundTrip(lines: seq<Line>)
    requires forall l :: l in lines ==> l.time <= U64_MAX && l.words.None?
    ensures Parse(PrintAll(lines)) == lines
            <==> Sorted(lines) && forall l :: l in lines ==> Plain(l.text)
  {
    ParseIsWellFormed(PrintAll(lines));
    if Sorted(lines) && forall l :: l in lines ==> Plain(l.text) {
      PrintedRawLines(lines);
      PrintedCues(lines);
      SortedIsFixed(lines);
    }
  }

  // ---- word timings inside a line --------------------------------------------------------------

  /** A line's text cut at its word tags: single characters, and tags with the text up to the next `<`. */
  datatype Piece = Letter(c: char) | Timed(tag: string, ms: nat, text: string)

  datatype Tag = Tag(content: string, ms: nat, rest: string)

  /** The word tag at the head of a text: its content, its time, and what follows. */
  function LeadingTag(text: string): (r: Option<Tag>)
    ensures r.Some? ==> |text| == |r.value.content| + 2 + |r.value.rest|
  {
    if text == "" || text[0] != '<' then None
    else
      match Find(text, '>')
      case None => None
      case Some(end) =>
        match ParseTime(text[1..end])
        case None => None
        case Some(ms) => Some(Tag(text[1..end], ms, text[end + 1..]))
  }

  lemma LeadingTagCuts(text: string)
    requires LeadingTag(text).Some?
    ensures var t := LeadingTag(text).value;
            text == ['<'] + t.content + ['>'] + t.rest && '>' !in t.content
  {
    hide ParseTime;
    var end := Find(text, '>').value;
    assert text == [text[0]] + text[1..end] + [text[end]] + text[end + 1..];
    assert forall c :: c in text[1..end] ==> c in text[..end];
  }

  function UpToTag(text: string): (n: nat)
    ensures n <= |text| && '<' !in text[..n]
    ensures n < |text| ==> text[n] == '<'
  {
    match Find(text, '<')
    case Some(i) => i
    case None => |text|
  }

  function Pieces(text: string): seq<Piece>
    decreases |text|
  {
    if text == "" then []
    else
      match LeadingTag(text)
      case Some(Tag(tag, ms, rest)) => [Timed(tag, ms, rest[..UpToTag(rest)])] + Pieces(rest[UpToTag(rest)..])
      case None => [Letter(text[0])] + Pieces(text[1..])
  }

  /** The text the pieces were cut from. */
  function Original(pieces: seq<Piece>): string {
    if pieces == [] then ""
    else
      (match pieces[0]
       case Letter(c) => [c]
       case Timed(tag, _, text) => ['<'] + tag + ['>'] + text) + Original(pieces[1..])
  }

  /** The text with exactly the recognised tags removed. */
  function Stripped(pieces: seq<Piece>): string {
    if pieces == [] then ""
    else (match pieces[0] case Letter(c) => [c] case Timed(_, _, text) => text) + Stripped(pieces[1..])
  }

  /** The words: each starts where the one before it ended, the first at `start`. */
  function Words(pieces: seq<Piece>, start: nat): seq<Word> {
    if pieces == [] then []
    else
      match pieces[0]
      case Letter(_) => Words(pieces[1..], start)
      case Timed(_, ms, text) => [Word(text, start, ms)] + Words(pieces[1..], ms)
  }

  function WithWords(l: Line): Line {
    var pieces := Pieces(l.text);
    var words := Words(pieces, l.time);
    if words == [] then l else l.(text := Trim(Stripped(pieces)), words := Some(words))
  }

  /** Nothing is lost: putting the recognised tags back gives the line's text. */
  lemma {:induction false} PiecesConserve(text: string)
    ensures Original(Pieces(text)) == text
    decreases |text|
  {
    hide ParseTime, LeadingTag, UpToTag;
    if text != "" {
      match LeadingTag(text) {
        case Some(Tag(tag, ms, rest)) =>
          var n := UpToTag(rest);
          LeadingTagCuts(text);
          PiecesConserve(rest[n..]);
          PrefixRest(rest, n);
          assert text == ['<'] + tag + ['>'] + (rest[..n] + rest[n..]);
        case None =>
          PiecesConserve(text[1..]);
          assert text == [text[0]] + text[1..];
      }
    }
  }

  ghost predicate Chained(words: seq<Word>, start: nat) {
    && (words != [] ==> words[0].startMs == start)
    && forall k :: 0 <= k < |words| - 1 ==> words[k].endMs == words[k + 1].startMs
  }

  lemma {:induction false} WordsChain(pieces: seq<Piece>, start: nat)
    ensures Chained(Words(pieces, start), start)
  {
    if pieces != [] {
      WordsChain(pieces[1..], if pieces[0].Timed? then pieces[0].ms else start);
    }
  }

  /** Word `k` has its place in order, before word `k + 1`. */
  ghost predicate SlicedAt(words: seq<Word>, text: string, at: seq<nat>, k: nat)
    requires k < |words| == |at|
  {
    && at[k] + |words[k].text| <= |text| && text[at[k]..at[k] + |words[k].text|] == words[k].text
    && (k < |words| - 1 ==> at[k] + |words[k].text| <= at[k + 1])
  }

  /** `at[k]` is where word `k` lies in `text`; the places are in order and do not overlap. */
  ghost predicate Sliced(words: seq<Word>, text: string, at: seq<nat>) {
    |at| == |words| && forall k :: 0 <= k < |words| ==> SlicedAt(words, text, at, k)
  }

  function Shift(at: seq<nat>, n: nat): seq<nat> {
    seq(|at|, k requires 0 <= k < |at| => n + at[k])
  }

  lemma SliceMoves(head: string, text: string, i: nat, n: nat)
    requires i + n <= |text|
    ensures (head + text)[|head| + i..|head| + i + n] == text[i..i + n]
  {
  }

  lemma ShiftSlices(head: string, words: seq<Word>, text: string, at: seq<nat>)
    requires Sliced(words, text, at)
    ensures Sliced(words, head + text, Shift(at, |head|))
  {
    forall k | 0 <= k < |words| ensures SlicedAt(words, head + text, Shift(at, |head|), k) {
      assert SlicedAt(words, text, at, k);
      SliceMoves(head, text, at[k], |words[k].text|);
    }
  }

  lemma PrependSlice(w: Word, words: seq<Word>, text: string, at: seq<nat>)
    requires Sliced(words, text, at)
    ensures Sliced([w] + words, w.text + text, [0] + Shift(at, |w.text|))
  {
    ShiftSlices(w.text, words, text, at);
    var later := Shift(at, |w.text|);
    var words', all, at' := [w] + words, w.text + text, [0] + later;
    forall k | 0 <= k < |words'| ensures SlicedAt(words', all, at', k) {
      if k == 0 {
        assert all[..|w.text|] == w.text;
        assert words != [] ==> at'[1] == later[0];
      } else {
        assert SlicedAt(words, all, later, k - 1);
        assert k < |words'| - 1 ==> at'[k + 1] == later[k];
      }
    }
  }

  /** The words are ordered, disjoint slices of the text left after the tags are removed. */
  lemma {:induction false} WordsAreSlices(pieces: seq<Piece>, start: nat) returns (at: seq<nat>)
    ensures Sliced(Words(pieces, start), Stripped(pieces), at)
  {
    if pieces == [] {
      at := [];
    } else {
      match pieces[0]
      case Letter(c) =>
        at := WordsAreSlices(pieces[1..], start);
        ShiftSlices([c], Words(pieces[1..], start), Stripped(pieces[1..]), at);
        at := Shift(at, 1);
      case Timed(_, ms, text) =>
        at := WordsAreSlices(pieces[1..], ms);
        PrependSlice(Word(text, start, ms), Words(pieces[1..], ms), Stripped(pieces[1..]), at);
        at := [0] + Shift(at, |text|);
    }
  }

  lemma {:induction false} NoBracketNoWords(text: string, start: nat)
    requires '<' !in text
    ensures Words(Pieces(text), start) == []
  {
    if text != "" {
      assert text[0] in text && forall c :: c in text[1..] ==> c in text;
      NoBracketNoWords(text[1..], start);
      assert Pieces(text)[1..] == Pieces(text[1..]);
    }
  }

  /**
   A line is changed exactly when a word tag is recognised in it. Then its words chain from the cue,
   are slices of the text without the tags, and the new text is that text trimmed.
   */
  lemma WordTimingsAreSound(l: Line) returns (at: seq<nat>)
    requires l.words.None?
    ensures var pieces, l' := Pieces(l.text), WithWords(l);
            && Original(pieces) == l.text && l'.time == l.time
            && (l' == l <==> forall p :: p in pieces ==> p.Letter?)
            && (l' != l ==>
                 l'.text == Trim(Stripped(pieces)) && l'.words.Some? && Chained(l'.words.value, l.time)
                 && Sliced(l'.words.value, Stripped(pieces), at))
  {
    PiecesConserve(l.text);
    WordsChain(Pieces(l.text), l.time);
    at := WordsAreSlices(Pieces(l.text), l.time);
    WordsIffTimed(Pieces(l.text), l.time);
  }

  lemma {:induction false} WordsIffTimed(pieces: seq<Piece>, start: nat)
    ensures Words(pieces, start) == [] <==> forall p :: p in pieces ==> p.Letter?
  {
    if pieces != [] {
      WordsIffTimed(pieces[1..], if pieces[0].Timed? then pieces[0].ms else start);
      assert pieces == [pieces[0]] + pieces[1..];
    }
  }

  // ---- words against the shown text ------------------------------------------------------------

  /** The characters all words hold together. */
  function Held(words: seq<Word>): nat {
    if words == [] then 0 else Held(words[..|words| - 1]) + |words[|words| - 1].text|
  }

  lemma {:induction false} SlicesFit(words: seq<Word>, text: string, at: seq<nat>, k: nat)
    requires Sliced(words, text, at) && k < |words|
    ensures Held(words[..k + 1]) <= at[k] + |words[k].text| <= |text|
  {
    assert words[..k + 1][..k] == words[..k] && SlicedAt(words, text, at, k);
    if k > 0 {
      assert SlicedAt(words, text, at, k - 1);
      SlicesFit(words, text, at, k - 1);
    }
  }

  lemma HeldFront(w: Word, words: seq<Word>)
    ensures Held([w] + words) == |w.text| + Held(words)
  {
    if words == [] {
      assert [w] + words == [w];
    } else {
      HeldFront(w, words[..|words| - 1]);
      assert ([w] + words)[..|words|] == [w] + words[..|words| - 1];
    }
  }

  lemma {:induction false} TimedHoldAll(pieces: seq<Piece>, start: nat)
    requires forall p :: p in pieces ==> p.Timed?
    ensures Held(Words(pieces, start)) == |Stripped(pieces)|
  {
    if pieces != [] {
      assert pieces[0] in pieces && forall p :: p in pieces[1..] ==> p in pieces;
      TimedHoldAll(pieces[1..], pieces[0].ms);
      HeldFront(Word(pieces[0].text, start, pieces[0].ms), Words(pieces[1..], pieces[0].ms));
    }
  }

  /** The words have places in a text. */
  ghost predicate Placed(words: seq<Word>, text: string) {
    exists at :: Sliced(words, text, at)
  }

  /** Words that make up the whole text have no place in a shorter one. */
  lemma TooLongToPlace(pieces: seq<Piece>, start: nat, text: string)
    requires (forall p :: p in pieces ==> p.Timed?) && |text| < |Stripped(pieces)|
    ensures !Placed(Words(pieces, start), text)
  {
    TimedHoldAll(pieces, start);
    var words := Words(pieces, start);
    hide Words, Stripped, Sliced;
    assert words[..|words|] == words;
    if Placed(words, text) {
      var at :| Sliced(words, text, at);
      if words != [] {
        SlicesFit(words, text, at, |words| - 1);
      }
    }
  }

  /**
   The shown text is trimmed, the words are not. They are slices of the shown text whenever nothing
   was trimmed off; in a line that is timed throughout, only then.
   */
  lemma ShownWords(l: Line)
    requires l.words.None?
    ensures var pieces, l' := Pieces(l.text), WithWords(l);
            l' != l ==>
              && (Trimmed(Stripped(pieces)) ==> Placed(l'.words.value, l'.text))
              && ((forall p :: p in pieces ==> p.Timed?) ==>
                   (Placed(l'.words.value, l'.text) <==> Trimmed(Stripped(pieces))))
  {
    hide Pieces, Sliced, Words, Trim, Trimmed, Stripped, Placed;
    var pieces := Pieces(l.text);
    var words, text := Words(pieces, l.time), Stripped(pieces);
    PlacedWhole(pieces, l.time);
    TrimFacts(text);
    if (forall p :: p in pieces ==> p.Timed?) && !Trimmed(text) {
      TrimShortens(text);
      TooLongToPlace(pieces, l.time, Trim(text));
    }
  }

  lemma PlacedWhole(pieces: seq<Piece>, start: nat)
    ensures Placed(Words(pieces, start), Stripped(pieces))
  {
    hide Words, Stripped, Sliced;
    var at := WordsAreSlices(pieces, start);
  }

  /** A word with a space before it sticks out of the shown text: no place in "hi" holds " hi". */
  lemma WordCanStickOut(t: nat)
    requires t <= U64_MAX
    ensures var l := Line(0, ['<'] + Stamp(t) + ['>'] + " hi", None);
            && Plain(l.text)
            && WithWords(l) == Line(0, "hi", Some([Word(" hi", 0, t)]))
            && !Placed([Word(" hi", 0, t)], "hi")
  {
    TaggedIsPlain(t, " hi");
    OneTimedWord(t, " hi");
    TrimHi();
    hide Stamp, Pieces, Plain, Placed, Sliced, Trim;
    var pieces := [Timed(Stamp(t), t, " hi")];
    assert pieces[1..] == [] && Words([], t) == [] && Stripped([]) == "";
    assert Words(pieces, 0) == [Word(" hi", 0, t)] && Stripped(pieces) == " hi";
    TooLongToPlace(pieces, 0, "hi");
  }

  lemma TrimHi()
    ensures Trim(" hi") == "hi"
  {
    assert " hi"[1..] == "hi";
    TrimFacts("hi");
  }

  lemma TaggedIsPlain(t: nat, word: string)
    requires Trimmed(['<'] + word) && '\n' !in word && word != ""
    ensures Plain(['<'] + Stamp(t) + ['>'] + word)
  {
    var text := ['<'] + Stamp(t) + ['>'] + word;
    assert text[|text| - 1] == (['<'] + word)[|word|];
    if '\n' in Stamp(t) {
      StampHolds(t, '\n');
    }
    hide Stamp;
  }

  lemma OneTimedWord(t: nat, word: string)
    requires t <= U64_MAX && '<' !in word && word != ""
    ensures Pieces(['<'] + Stamp(t) + ['>'] + word) == [Timed(Stamp(t), t, word)]
  {
    var text := ['<'] + Stamp(t) + ['>'] + word;
    StampLeads(t, word);
    hide Stamp, LeadingTag;
    assert UpToTag(word) == |word|;
    assert word[..|word|] == word && word[|word|..] == "";
    assert Pieces("") == [];
  }

  lemma StampLeads(t: nat, rest: string)
    requires t <= U64_MAX
    ensures LeadingTag(['<'] + Stamp(t) + ['>'] + rest) == Some(Tag(Stamp(t), t, rest))
  {
    var text := ['<'] + Stamp(t) + ['>'] + rest;
    StampParses(t);
    StampHasNo(t, '>');
    hide Stamp, ParseTime, Find;
    Cut(['<'] + Stamp(t), '>', rest);
    assert text[1..1 + |Stamp(t)|] == Stamp(t);
  }

  lemma StampHasNo(t: nat, c: char)
    requires !IsDigit(c) && c != ':' && c != '.'
    ensures c !in Stamp(t)
  {
    hide Stamp;
    if c in Stamp(t) {
      StampHolds(t, c);
    }
  }

  // ---- the parsers as they run -----------------------------------------------------------------

  method TakeAll(text: string) returns (times: seq<nat>, rest: string)
    ensures times == TakeTimes(text).0 && rest == TakeTimes(text).1
  {
    hide LeadingTime;
    rest, times := text, [];
    var lead := LeadingTime(rest);
    while lead.Some?
      invariant lead == LeadingTime(rest)
      invariant TakeTimes(text).0 == times + TakeTimes(rest).0 && TakeTimes(text).1 == TakeTimes(rest).1
      decreases |rest|
    {
      var (ms, left) := lead.value;
      TakeOne(rest);
      times := times + [ms];
      rest := left;
      lead := LeadingTime(rest);
    }
  }

  lemma TakeOne(text: string)
    requires LeadingTime(text).Some?
    ensures var (ms, rest) := LeadingTime(text).value;
            |rest| < |text| && TakeTimes(text) == ([ms] + TakeTimes(rest).0, TakeTimes(rest).1)
  {
  }

  method ParseLrc(lrc: string) returns (out: seq<Line>)
    ensures out == Parse(lrc)
  {
    out := [];
    var raws := RawLines(lrc);
    var i := 0;
    while i < |raws|
      invariant 0 <= i <= |raws| && out == AllCues(raws[..i])
    {
      var times, rest := TakeAll(Trim(raws[i]));
      PrefixStep(raws, i);
      out := out + Cues(times, rest);
      i := i + 1;
    }
    PrefixRest(raws, i);
    out := SortByTime(out);
  }

  /** One line's tags: the cursor moves past a recognised tag and its text, or past one character. */
  method ScanWords(l: Line) returns (buffer: string, words: seq<Word>)
    ensures buffer == Stripped(Pieces(l.text)) && words == Words(Pieces(l.text), l.time)
  {
    hide ParseTime, LeadingTag, UpToTag, Pieces, Stripped, Words;
    var text := l.text;
    buffer, words := "", [];
    var last, pos := l.time, 0;
    while pos < |text|
      invariant 0 <= pos <= |text|
      invariant Stripped(Pieces(text)) == buffer + Stripped(Pieces(text[pos..]))
      invariant Words(Pieces(text), l.time) == words + Words(Pieces(text[pos..]), last)
      decreases |text| - pos
    {
      var tag := LeadingTag(text[pos..]);
      PiecesStep(text[pos..], last);
      if tag.Some? {
        var Tag(content, ms, rest) := tag.value;
        var n := UpToTag(rest);
        LeadingTagCuts(text[pos..]);
        DropTwice(text, pos, ['<'] + content + ['>'], rest, n);
        buffer := buffer + rest[..n];
        words := words + [Word(rest[..n], last, ms)];
        last := ms;
        pos := pos + |content| + 2 + n;
      } else {
        buffer := buffer + [text[pos]];
        pos := pos + 1;
      }
    }
    assert text[pos..] == "";
    NoPieces(last);
  }

  lemma DropTwice(text: string, pos: nat, head: string, rest: string, n: nat)
    requires pos <= |text| && text[pos..] == head + rest && n <= |rest|
    ensures pos + |head| + n <= |text| && rest[n..] == text[pos + |head| + n..]
  {
    assert rest == text[pos..][|head|..] == text[pos + |head|..];
  }

  lemma NoPieces(start: nat)
    ensures Stripped(Pieces("")) == "" && Words(Pieces(""), start) == []
  {
  }

  lemma PiecesStep(text: string, start: nat)
    requires text != ""
    ensures LeadingTag(text).Some? ==>
              var t := LeadingTag(text).value;
              var n := UpToTag(t.rest);
              && Stripped(Pieces(text)) == t.rest[..n] + Stripped(Pieces(t.rest[n..]))
              && Words(Pieces(text), start) == [Word(t.rest[..n], start, t.ms)] + Words(Pieces(t.rest[n..]), t.ms)
    ensures LeadingTag(text).None? ==>
              && Stripped(Pieces(text)) == [text[0]] + Stripped(Pieces(text[1..]))
              && Words(Pieces(text), start) == Words(Pieces(text[1..]), start)
  {
    hide ParseTime, LeadingTag, UpToTag;
    var tag := LeadingTag(text);
    if tag.Some? {
      var rest := tag.value.rest;
      assert Pieces(text)[1..] == Pieces(rest[UpToTag(rest)..]);
    } else {
      assert Pieces(text)[1..] == Pieces(text[1..]);
    }
  }

  method ParseElrc(lrc: string) returns (lines: seq<Line>)
    ensures |lines| == |Parse(lrc)|
    ensures forall k :: 0 <= k < |lines| ==> lines[k] == WithWords(Parse(lrc)[k])
  {
    hide Pieces, Stripped, Words, Parse;
    lines := ParseLrc(lrc);
    ghost var base := lines;
    var i := 0;
    while i < |lines|
      invariant 0 <= i <= |lines| == |base|
      invariant forall k :: 0 <= k < i ==> lines[k] == WithWords(base[k])
      invariant forall k :: i <= k < |lines| ==> lines[k] == base[k]
    {
      var l := lines[i];
      if '<' in l.text || '(' in l.text {
        var buffer, words := ScanWords(l);
        if words != [] {
          lines := lines[i := l.(text := Trim(buffer), words := Some(words))];
        }
      } else {
        NoBracketNoWords(l.text, l.time);
      }
      i := i + 1;
    }
  }
}
