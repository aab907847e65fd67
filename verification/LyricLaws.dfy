/**
 What a time tag says in every form the source reads, lines with several stamps or none, and enhanced
 lines written and read back.
 */
module LyricLaws {
  import opened Common
  import opened Text
  import opened Lyrics

  // ---- fractions of a second -------------------------------------------------------------------

  lemma ValueAppend(s: string, d: char)
    requires AllDigits(s) && IsDigit(d)
    ensures AllDigits(s + [d]) && Value(s + [d]) == Value(s) * 10 + (d as int - '0' as int)
  {
    assert (s + [d])[..|s|] == s;
  }

  /** A fraction is a decimal fraction: a zero after it changes nothing. */
  lemma TrailingZero(f: string)
    requires AllDigits(f) && f != ""
    ensures ParseFraction(f + "0") == ParseFraction(f)
  {
    ValueAppend(f, '0');
    AsciiDigitsOf(f);
    AsciiDigitsOf(f + "0");
    hide AsciiDigits, Value;
    if |f| >= 3 {
      assert (f + "0")[..3] == f[..3];
    }
  }

  /** Thousandths are read as they are, and whatever follows them is cut off. */
  lemma ThousandthsAreWhole(f: string, more: string)
    requires AllDigits(f) && |f| == 3 && AllDigits(more)
    ensures ParseFraction(f + more) == Some(Value(f))
  {
    AsciiDigitsOf(f + more);
    hide AsciiDigits, Value;
    assert (f + more)[..3] == f && (more == "" ==> f + more == f);
  }

  /** Tenths and hundredths, by printed width. */
  lemma TenthsAndHundredths(f: string)
    requires AllDigits(f)
    ensures |f| == 1 ==> ParseFraction(f) == Some(Value(f) * 100)
    ensures |f| == 2 ==> ParseFraction(f) == Some(Value(f) * 10)
  {
    hide ParseFraction, Value;
    var g := f + "0";
    assert "0" == ['0'];
    ValueAppend(f, '0');
    ValueAppend(g, '0');
    if |f| == 1 {
      TrailingZero(f);
      TrailingZero(g);
      assert g + "0" + "" == g + "0";
      ThousandthsAreWhole(g + "0", "");
    } else if |f| == 2 {
      TrailingZero(f);
      assert g + "" == g;
      ThousandthsAreWhole(g, "");
    }
  }

  /** What is no digit does not count. */
  lemma {:induction false} NoiseIsIgnored(a: string, c: char, b: string)
    requires !IsDigit(c)
    ensures ParseFraction(a + [c] + b) == ParseFraction(a + b)
  {
    DigitsSkip(a, c, b);
  }

  lemma {:induction false} DigitsSkip(a: string, c: char, b: string)
    requires !IsDigit(c)
    ensures AsciiDigits(a + [c] + b) == AsciiDigits(a + b)
  {
    if a == "" {
      assert a + [c] + b == [c] + b && a + b == b;
    } else {
      DigitsSkip(a[1..], c, b);
      assert (a + [c] + b)[1..] == a[1..] + [c] + b && (a + b)[1..] == a[1..] + b;
    }
  }

  /** A fraction with no digit makes no time. */
  lemma EmptyFraction(f: string)
    ensures (forall c :: c in f ==> !IsDigit(c)) ==> ParseFraction(f) == None
  {
    if forall c :: c in f ==> !IsDigit(c) {
      NoDigits(f);
    }
  }

  lemma {:induction false} NoDigits(f: string)
    requires forall c :: c in f ==> !IsDigit(c)
    ensures AsciiDigits(f) == ""
  {
    if f != "" {
      assert f[0] in f && forall c :: c in f[1..] ==> c in f;
      NoDigits(f[1..]);
    }
  }

  // ---- whole tags ------------------------------------------------------------------------------

  /** A run of digits as a number that fits 64 bits. */
  predicate Number(s: string) {
    s != "" && AllDigits(s) && Value(s) <= U64_MAX
  }

  /** `mm:ss.f`: minutes, seconds and a fraction of any width. */
  lemma FractionTimes(m: string, s: string, f: string)
    requires Number(m) && Number(s) && ParseFraction(f).Some?
    ensures ParseTime(m + [':'] + (s + ['.'] + f)) == Some(Value(m) * 60_000 + Value(s) * 1000 + ParseFraction(f).value)
  {
    hide Find, Trim, ParseU64, ParseFraction, Value, ParseTime;
    DigitsLack(s, '.');
    Cut(s, '.', f);
    DigitsParse(s);
    TimeParses(m, s + ['.'] + f, Value(s) * 1000 + ParseFraction(f).value);
  }

  /** `mm:ss`: no fraction at all. */
  lemma WholeTimes(m: string, s: string)
    requires Number(m) && Number(s)
    ensures ParseTime(m + [':'] + s) == Some(Value(m) * 60_000 + Value(s) * 1000)
  {
    hide Find, Trim, ParseU64, Value, ParseTime;
    DigitsLack(s, '.');
    assert Find(s, '.') == None;
    DigitsParse(s);
    TimeParses(m, s, Value(s) * 1000);
  }

  /** The usual form, hundredths: `[00:12.50]` is twelve and a half seconds. */
  lemma HundredthsTag(m: nat, s: nat, cs: nat)
    requires m <= U64_MAX && s < 60 && cs < 100
    ensures ParseTime(Field(m, 2) + [':'] + (Field(s, 2) + ['.'] + Pad(Print(cs), 2)))
            == Some(m * 60_000 + s * 1000 + cs * 10)
  {
    hide ParseTime, ParseFraction;
    TenthsAndHundredths(Pad(Print(cs), 2));
    FractionTimes(Field(m, 2), Field(s, 2), Pad(Print(cs), 2));
  }

  /** A tag without a colon, or with no number before it, is no time: metadata such as `ar:` is not one. */
  lemma MetadataIsNoTime(tag: string, key: string, value: string)
    ensures ':' !in tag ==> ParseTime(tag) == None
    ensures ':' !in key && ParseU64(Trim(key)).None? ==> ParseTime(key + [':'] + value) == None
  {
    if ':' !in key {
      Cut(key, ':', value);
    }
  }

  /** Numbers: any digits that fit 64 bits, with a plus sign if need be, and nothing else. */
  lemma NumbersParse(s: string)
    ensures ParseU64(s).Some? <==> Number(s) || (s != "" && s[0] == '+' && Number(s[1..]))
    ensures Number(s) ==> ParseU64(s) == Some(Value(s)) == ParseU64(['+'] + s)
  {
    if Number(s) {
      assert IsDigit(s[0]) && (['+'] + s)[1..] == s;
    } else if s != "" && s[0] == '+' {
      assert !IsDigit(s[0]) && s[0] in s;
    }
  }

  // ---- spaces ----------------------------------------------------------------------------------

  predicate Blank(s: string) {
    forall c :: c in s ==> IsSpace(c)
  }

  /** Trimming takes off all the space around a text and none of the text. */
  lemma TrimUnpads(a: string, s: string, b: string)
    requires Blank(a) && Blank(b) && Trimmed(s) && s != ""
    ensures Trim(a + s + b) == s
  {
    FrontUnpads(a, s + b);
    Regroup(a, s, b);
    BackUnpads(s, b);
  }

  lemma {:induction false} FrontUnpads(a: string, s: string)
    requires Blank(a) && s != "" && !IsSpace(s[0])
    ensures TrimStart(a + s) == s
  {
    if a == "" {
      assert a + s == s;
    } else {
      assert a[0] in a && forall c :: c in a[1..] ==> c in a;
      FrontUnpads(a[1..], s);
      assert (a + s)[1..] == a[1..] + s;
    }
  }

  lemma {:induction false} BackUnpads(s: string, b: string)
    requires Blank(b) && s != "" && !IsSpace(s[|s| - 1])
    ensures TrimEnd(s + b) == s
  {
    if b == "" {
      assert s + b == s;
    } else {
      assert b[|b| - 1] in b && forall c :: c in b[..|b| - 1] ==> c in b;
      BackUnpads(s, b[..|b| - 1]);
      assert (s + b)[..|s + b| - 1] == s + b[..|b| - 1];
    }
  }

  // ---- lines with several stamps or none -------------------------------------------------------

  function Stamps(ts: seq<nat>, text: string): string {
    if ts == [] then text else ['['] + (Stamp(ts[0]) + [']'] + Stamps(ts[1..], text))
  }

  /** A line with several stamps stands once at each of them, with the text after the last. */
  lemma {:induction false} StampsRepeat(ts: seq<nat>, text: string)
    requires (forall t :: t in ts ==> t <= U64_MAX) && Plain(text)
    ensures TakeTimes(Stamps(ts, text)) == (ts, text) && Trimmed(Stamps(ts, text))
  {
    hide LeadingTime, Stamp, Plain, TakeTimes, Trimmed, Stamps;
    if ts == [] {
      NoTimes(text);
      StampsNone(text);
    } else {
      assert ts[0] in ts && forall t :: t in ts[1..] ==> t in ts;
      StampsRepeat(ts[1..], text);
      StampsFirst(ts, text);
      var later := Stamps(ts[1..], text);
      StampLine(ts[0], later);
      OneMoreTime(Stamps(ts, text), ts[0], later);
      hide *;
      assert ts == [ts[0]] + ts[1..];
    }
  }

  lemma StampsNone(text: string)
    ensures Stamps([], text) == text
  {
  }

  lemma StampLine(t: nat, later: string)
    requires t <= U64_MAX && Trimmed(later)
    ensures var line := PrintLine(Line(t, later, None)); LeadingTime(line) == Some((t, later)) && Trimmed(line)
  {
    var l := Line(t, later, None);
    PrintedLeadingTime(l);
    PrintedIsTrimmed(l);
    TrimFacts(PrintLine(l));
    hide *;
  }

  lemma NoTimes(text: string)
    requires Plain(text)
    ensures TakeTimes(text) == ([], text) && Trimmed(text)
  {
    hide LeadingTime;
  }

  lemma StampsFirst(ts: seq<nat>, text: string)
    requires ts != []
    ensures Stamps(ts, text) == PrintLine(Line(ts[0], Stamps(ts[1..], text), None))
  {
  }

  lemma OneMoreTime(raw: string, t: nat, rest: string)
    ensures LeadingTime(raw) == Some((t, rest)) ==>
              TakeTimes(raw) == ([t] + TakeTimes(rest).0, TakeTimes(rest).1)
  {
  }

  /** A raw line makes lines exactly when it begins with a stamp. */
  lemma NoStampNoLine(raw: string)
    ensures RawCues(raw) == [] <==> LeadingTime(Trim(raw)).None?
  {
    hide LeadingTime, Trim;
  }

  // ---- enhanced lines, written and read back ---------------------------------------------------

  /** Words with the times of the tags before them. */
  function Tagged(words: seq<(nat, string)>): string {
    if words == [] then "" else ['<'] + Stamp(words[0].0) + ['>'] + (words[0].1 + Tagged(words[1..]))
  }

  function Tags(words: seq<(nat, string)>): seq<Piece> {
    if words == [] then []
    else [Timed(Stamp(words[0].0), words[0].0, words[0].1)] + Tags(words[1..])
  }

  lemma TaggedHead(words: seq<(nat, string)>)
    ensures words != [] ==> Tagged(words) != "" && Tagged(words)[0] == '<'
  {
  }

  /** Reading tags back gives every tag with its own time and its own text. */
  lemma {:induction false} TagsReadBack(words: seq<(nat, string)>)
    requires forall w :: w in words ==> w.0 <= U64_MAX && '<' !in w.1
    ensures Pieces(Tagged(words)) == Tags(words)
  {
    hide LeadingTag, Stamp, UpToTag;
    if words != [] {
      assert words[0] in words && forall w :: w in words[1..] ==> w in words;
      TagsReadBack(words[1..]);
      var t, word, later := words[0].0, words[0].1, Tagged(words[1..]);
      TaggedHead(words[1..]);
      StampLeads(t, word + later);
      StopsAtTag(word, later);
      assert (word + later)[..|word|] == word && (word + later)[|word|..] == later;
    }
  }

  lemma StopsAtTag(word: string, later: string)
    requires '<' !in word && (later != "" ==> later[0] == '<')
    ensures UpToTag(word + later) == |word|
  {
    if later == "" {
      assert word + later == word;
    } else {
      assert later == ['<'] + later[1..];
      FindAfter(word, '<', later[1..]);
      assert word + ['<'] + later[1..] == word + later;
    }
  }

  /** The words of an enhanced line: each ends at its own tag and starts at the tag before, the first at the cue. */
  lemma {:induction false} WordsEndAtTags(words: seq<(nat, string)>, start: nat, k: nat)
    requires k < |words|
    ensures var read := Words(Tags(words), start);
            |read| == |words| &&
            read[k] == Word(words[k].1, if k == 0 then start else words[k - 1].0, words[k].0)
  {
    var pieces := Tags(words);
    assert pieces[1..] == Tags(words[1..]);
    if |words| == 1 {
      assert Tags(words[1..]) == [] && Words([], words[0].0) == [];
    } else {
      WordsEndAtTags(words[1..], words[0].0, if k == 0 then 0 else k - 1);
    }
  }

  lemma {:induction false} TextsJoin(words: seq<(nat, string)>)
    ensures Stripped(Tags(words)) == if words == [] then "" else words[0].1 + Stripped(Tags(words[1..]))
  {
    if words != [] {
      assert Tags(words)[1..] == Tags(words[1..]);
    }
  }

  /** An enhanced line read from its tags: every word with its times, and the texts in a row as the line. */
  lemma EnhancedReadsBack(words: seq<(nat, string)>, time: nat)
    requires words != [] && forall w :: w in words ==> w.0 <= U64_MAX && '<' !in w.1
    ensures var l := WithWords(Line(time, Tagged(words), None));
            l == Line(time, Trim(Stripped(Tags(words))), Some(Words(Tags(words), time)))
  {
    TagsReadBack(words);
    WordsEndAtTags(words, time, 0);
  }
}
