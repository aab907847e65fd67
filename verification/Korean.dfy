/**
 Korean romanization (crates/core/src/romanize.rs): the one-pass loop that holds a final consonant back
 until the next character is known, against a reading in which each syllable looks only at itself
 and its two neighbours.
 */
module Korean {
  import opened Common

  const SYLLABLES := 0xAC00
  const LAST_SYLLABLE := 0xD7A3

  const CHO: seq<string> := [
    "g", "kk", "n", "d", "tt", "r", "m", "b", "pp", "s", "ss", "", "j", "jj", "ch", "k", "t", "p",
    "h"]

  const JUNG: seq<string> := [
    "a", "ae", "ya", "yae", "eo", "e", "yeo", "ye", "o", "wa", "wae", "oe", "yo", "u", "wo", "we",
    "wi", "yu", "eu", "eui", "i"]

  const JONG: seq<string> := [
    "", "k", "kk", "k", "n", "n", "n", "t", "l", "k", "m", "p", "t", "t", "p", "l", "m", "p", "p",
    "t", "t", "ng", "t", "t", "k", "t", "p", "t"]

  /** A final consonant read together with the initial that follows it, where the two merge. */
  function Merged(jong: nat, cho: nat): Option<string> {
    match jong
    case 1 =>
      match cho {
        case 2 => Some("ngn") case 5 => Some("ngn") case 6 => Some("ngm") case 11 => Some("g")
        case 18 => Some("kh") case _ => None
      }
    case 2 =>
      match cho {
        case 2 => Some("ngn") case 5 => Some("ngn") case 6 => Some("ngm") case 11 => Some("kk")
        case 18 => Some("kh") case _ => None
      }
    case 3 =>
      match cho {
        case 2 => Some("ngn") case 5 => Some("ngn") case 6 => Some("ngm") case 11 => Some("ks")
        case 18 => Some("kch") case _ => None
      }
    case 4 =>
      match cho { case 5 => Some("ll") case _ => None }
    case 5 =>
      match cho {
        case 2 => Some("nn") case 5 => Some("nn") case 6 => Some("nm") case 11 => Some("nj")
        case 18 => Some("nch") case _ => None
      }
    case 6 =>
      match cho { case 5 => Some("nn") case 11 => Some("nh") case _ => None }
    case 7 =>
      match cho {
        case 2 => Some("nn") case 5 => Some("nn") case 6 => Some("nm") case 11 => Some("d")
        case 18 => Some("th") case _ => None
      }
    case 8 =>
      match cho { case 2 => Some("ll") case 5 => Some("ll") case 11 => Some("r") case _ => None }
    case 9 =>
      match cho {
        case 2 => Some("ngn") case 5 => Some("ngn") case 6 => Some("ngm") case 11 => Some("lg")
        case 18 => Some("lkh") case _ => None
      }
    case 10 =>
      match cho {
        case 2 => Some("mn") case 5 => Some("mn") case 6 => Some("mm") case 11 => Some("lm")
        case 18 => Some("lmh") case _ => None
      }
    case 11 =>
      match cho {
        case 2 => Some("mn") case 5 => Some("mn") case 6 => Some("mm") case 11 => Some("lb")
        case 18 => Some("lph") case _ => None
      }
    case 12 =>
      match cho {
        case 2 => Some("nn") case 5 => Some("nn") case 6 => Some("nm") case 11 => Some("ls")
        case 18 => Some("lsh") case _ => None
      }
    case 13 =>
      match cho {
        case 2 => Some("nn") case 5 => Some("nn") case 6 => Some("nm") case 11 => Some("lt")
        case 18 => Some("lth") case _ => None
      }
    case 14 =>
      match cho {
        case 2 => Some("mn") case 5 => Some("mn") case 6 => Some("mm") case 11 => Some("lp")
        case 18 => Some("lph") case _ => None
      }
    case 15 =>
      match cho {
        case 2 => Some("ll") case 5 => Some("ll") case 6 => Some("lm") case 11 => Some("lh")
        case 18 => Some("lh") case _ => None
      }
    case 16 =>
      match cho { case 5 => Some("mn") case _ => None }
    case 17 =>
      match cho {
        case 2 => Some("mn") case 5 => Some("mn") case 6 => Some("mm") case 11 => Some("b")
        case 18 => Some("ph") case _ => None
      }
    case 18 =>
      match cho {
        case 2 => Some("mn") case 5 => Some("mn") case 6 => Some("mm") case 11 => Some("ps")
        case 18 => Some("psh") case _ => None
      }
    case 19 =>
      match cho {
        case 2 => Some("nn") case 5 => Some("nn") case 6 => Some("nm") case 11 => Some("s")
        case 18 => Some("sh") case _ => None
      }
    case 20 =>
      match cho {
        case 2 => Some("nn") case 5 => Some("nn") case 6 => Some("nm") case 11 => Some("ss")
        case 18 => Some("th") case _ => None
      }
    case 22 =>
      match cho {
        case 2 => Some("nn") case 5 => Some("nn") case 6 => Some("nm") case 11 => Some("j")
        case 18 => Some("ch") case _ => None
      }
    case 23 =>
      match cho {
        case 2 => Some("nn") case 5 => Some("nn") case 6 => Some("nm") case 11 => Some("ch")
        case 18 => Some("ch") case _ => None
      }
    case 24 =>
      match cho {
        case 2 => Some("ngn") case 5 => Some("ngn") case 6 => Some("ngm") case 11 => Some("k")
        case 18 => Some("kh") case _ => None
      }
    case 25 =>
      match cho {
        case 2 => Some("nn") case 5 => Some("nn") case 6 => Some("nm") case 11 => Some("t")
        case 18 => Some("th") case _ => None
      }
    case 26 =>
      match cho {
        case 2 => Some("mn") case 5 => Some("mn") case 6 => Some("mm") case 11 => Some("p")
        case 18 => Some("ph") case _ => None
      }
    case 27 =>
      match cho {
        case 0 => Some("k") case 2 => Some("nn") case 5 => Some("nn") case 6 => Some("mm")
        case 11 => Some("") case 18 => Some("t") case _ => None
      }
    case _ => None
  }

  predicate IsHangul(c: char) {
    SYLLABLES <= c as int <= LAST_SYLLABLE
  }

  // ---- syllable arithmetic ---------------------------------------------------------------------

  datatype Jamo = Jamo(cho: nat, jung: nat, jong: nat)
  {
    predicate Valid() { cho < 19 && jung < 21 && jong < 28 }
  }

  function Decompose(c: char): (j: Jamo)
    requires IsHangul(c)
    ensures j.Valid()
  {
    var index := c as int - SYLLABLES;
    Jamo(index / (21 * 28), index % (21 * 28) / 28, index % 28)
  }

  function Compose(j: Jamo): char
    requires j.Valid()
  {
    (SYLLABLES + (j.cho * 21 + j.jung) * 28 + j.jong) as char
  }

  /** Decomposition and composition are inverse (section 3.12 of the Unicode Standard). */
  lemma ComposeDecompose(c: char, j: Jamo)
    ensures IsHangul(c) ==> Compose(Decompose(c)) == c
    ensures j.Valid() ==> IsHangul(Compose(j)) && Decompose(Compose(j)) == j
  {
    if IsHangul(c) {
      Rejoin(c as int - SYLLABLES);
    }
    if j.Valid() {
      var index := (j.cho * 21 + j.jung) * 28 + j.jong;
      Split(j.cho, j.jung, j.jong);
      assert Compose(j) as int == SYLLABLES + index;
    }
  }

  lemma Rejoin(index: nat)
    ensures (index / 588 * 21 + index % 588 / 28) * 28 + index % 28 == index
  {
    var low := index % 588;
    assert low % 28 == index % 28 by {
      assert index == 28 * (index / 588 * 21) + low;
      Shifted(index / 588 * 21, low);
    }
  }

  lemma Split(cho: nat, jung: nat, jong: nat)
    requires jung < 21 && jong < 28
    ensures var index := (cho * 21 + jung) * 28 + jong;
            index / 588 == cho && index % 588 / 28 == jung && index % 28 == jong
  {
    Quotient(588, cho, jung * 28 + jong);
    Quotient(28, jung, jong);
    Quotient(28, cho * 21 + jung, jong);
  }

  lemma Quotient(d: int, q: int, r: int)
    requires 0 <= r < d
    ensures (d * q + r) / d == q && (d * q + r) % d == r
  {
    var n := d * q + r;
    assert d * (n / d - q) == r - n % d;
    MultipleGrows(d, n / d - q);
  }

  lemma MultipleGrows(d: int, k: int)
    requires d >= 0
    ensures k >= 1 ==> d * k >= d
    ensures k <= -1 ==> d * k <= -d
  {
  }

  lemma Shifted(q: nat, low: nat)
    ensures (28 * q + low) % 28 == low % 28
  {
    assert 28 * q + low == 28 * (q + low / 28) + low % 28;
    Quotient(28, q + low / 28, low % 28);
  }

  // ---- each syllable by itself -----------------------------------------------------------------

  function Head(text: string): Option<char> {
    if text == "" then None else Some(text[0])
  }

  /** The final consonant a character leaves behind; zero is none. */
  function JongOf(c: Option<char>): (jong: nat)
    ensures jong < 28
  {
    if c.Some? && IsHangul(c.value) then Decompose(c.value).jong else 0
  }

  /** How a final consonant and the next character meet, when they merge. */
  function Meeting(jong: nat, next: Option<char>): Option<string> {
    if jong != 0 && next.Some? && IsHangul(next.value) then Merged(jong, Decompose(next.value).cho) else None
  }

  function Final(jong: nat, next: Option<char>): string
    requires jong < 28
  {
    if jong == 0 then ""
    else if Meeting(jong, next).Some? then Meeting(jong, next).value
    else JONG[jong]
  }

  /** What one character is read as, given only the characters beside it. */
  function Piece(prev: Option<char>, c: char, next: Option<char>): string {
    if IsHangul(c) then
      var j := Decompose(c);
      (if Meeting(JongOf(prev), Some(c)).Some? then "" else CHO[j.cho]) + (JUNG[j.jung] + Final(j.jong, next))
    else [c]
  }

  /** A text read after `prev`, character by character. */
  function ReadAfter(prev: Option<char>, text: string): string
    decreases |text|
  {
    if text == "" then "" else Piece(prev, text[0], Head(text[1..])) + ReadAfter(Some(text[0]), text[1..])
  }

  function Romanized(text: string): string {
    ReadAfter(None, text)
  }

  // ---- where the reading splits ----------------------------------------------------------------

  function Last(text: string): Option<char> {
    if text == "" then None else Some(text[|text| - 1])
  }

  /** The reading of a text but for the final consonant it ends in. */
  function Body(prev: Option<char>, text: string): string
    decreases |text|
  {
    if text == "" then ""
    else if |text| > 1 then Piece(prev, text[0], Head(text[1..])) + Body(Some(text[0]), text[1..])
    else if IsHangul(text[0]) then
      (if Meeting(JongOf(prev), Some(text[0])).Some? then "" else CHO[Decompose(text[0]).cho])
      + JUNG[Decompose(text[0]).jung]
    else text
  }

  lemma {:induction false} ReadConcat(prev: Option<char>, a: string, b: string)
    requires a != ""
    decreases |a|
    ensures ReadAfter(prev, a + b) == Body(prev, a) + (Final(JongOf(Last(a)), Head(b)) + ReadAfter(Last(a), b))
  {
    var tail := ReadAfter(Last(a), b);
    if |a| > 1 {
      ReadFirst(prev, a, b);
      ReadConcat(Some(a[0]), a[1..], b);
      BodyFirst(prev, a);
      hide *;
      Regroup(Piece(prev, a[0], Head(a[1..])), Body(Some(a[0]), a[1..]), Final(JongOf(Last(a)), Head(b)) + tail);
    } else {
      ReadSingle(prev, a, b);
      OnePiece(prev, a, Head(b));
      hide *;
      Regroup(Body(prev, a), Final(JongOf(Last(a)), Head(b)), tail);
    }
  }

  lemma ReadFirst(prev: Option<char>, a: string, b: string)
    requires |a| > 1
    ensures ReadAfter(prev, a + b) == Piece(prev, a[0], Head(a[1..])) + ReadAfter(Some(a[0]), a[1..] + b)
  {
    hide Piece;
    assert (a + b)[1..] == a[1..] + b && (a + b)[0] == a[0];
    assert Head(a[1..] + b) == Head(a[1..]);
  }

  lemma ReadSingle(prev: Option<char>, a: string, b: string)
    requires |a| == 1
    ensures ReadAfter(prev, a + b) == Piece(prev, a[0], Head(b)) + ReadAfter(Last(a), b)
  {
    hide Piece;
    assert (a + b)[1..] == b && (a + b)[0] == a[0];
  }

  lemma BodyFirst(prev: Option<char>, a: string)
    requires |a| > 1
    ensures Body(prev, a) == Piece(prev, a[0], Head(a[1..])) + Body(Some(a[0]), a[1..]) && Last(a[1..]) == Last(a)
  {
    hide Piece;
  }

  lemma OnePiece(prev: Option<char>, a: string, next: Option<char>)
    requires |a| == 1
    ensures Piece(prev, a[0], next) == Body(prev, a) + Final(JongOf(Last(a)), next)
  {
    hide Merged, Meeting;
    assert a == [a[0]];
    if IsHangul(a[0]) {
      var j := Decompose(a[0]);
      var initial := if Meeting(JongOf(prev), Some(a[0])).Some? then "" else CHO[j.cho];
      assert initial + (JUNG[j.jung] + Final(j.jong, next)) == initial + JUNG[j.jung] + Final(j.jong, next);
    }
  }

  lemma ReadAlone(a: string)
    requires a != ""
    ensures Romanized(a) == Body(None, a) + Final(JongOf(Last(a)), None)
  {
    ReadConcat(None, a, "");
    assert a + "" == a;
  }

  /** The text after the join: only the first initial depends on what came before. */
  lemma ReadAfterBoundary(prev: Option<char>, b: string)
    ensures Meeting(JongOf(prev), Head(b)).None? ==> ReadAfter(prev, b) == Romanized(b)
    ensures Meeting(JongOf(prev), Head(b)).Some? ==>
              Romanized(b) == CHO[Decompose(b[0]).cho] + ReadAfter(prev, b)
  {
    hide Merged, Final;
    if b != "" && IsHangul(b[0]) {
      var j := Decompose(b[0]);
      var rest := JUNG[j.jung] + Final(j.jong, Head(b[1..]));
      assert CHO[j.cho] + rest + ReadAfter(Some(b[0]), b[1..]) == CHO[j.cho] + (rest + ReadAfter(Some(b[0]), b[1..]));
      assert "" + rest == rest;
    }
  }

  /**
   Two texts read together as they do apart, exactly when the consonants at the join do not merge or
   their merged form happens to spell the two unmerged ones.
   */
  lemma SplitsExactly(a: string, b: string)
    ensures var meeting := Meeting(JongOf(Last(a)), Head(b));
            Romanized(a + b) == Romanized(a) + Romanized(b)
            <==> (meeting.Some? ==> meeting.value == JONG[JongOf(Last(a))] + CHO[Decompose(b[0]).cho])
  {
    hide Merged, Decompose, ReadAfter, Body;
    if a == "" {
      assert a + b == b;
      assert Romanized("") == "" by { ReadNothing(None); }
      assert "" + Romanized(b) == Romanized(b);
    } else {
      SplitsNonempty(a, b);
    }
  }

  /** The two syllables of "domestic" read gungnae together, and guk and nae apart. */
  lemma MergedReading()
    ensures var guk, nae := ['\U{AD6D}'], ['\U{B0B4}'];
            Romanized(guk + nae) != Romanized(guk) + Romanized(nae)
  {
    var guk, nae := ['\U{AD6D}'], ['\U{B0B4}'];
    assert Decompose(guk[0]) == Jamo(0, 13, 1) && Decompose(nae[0]) == Jamo(2, 1, 0);
    assert Meeting(JongOf(Last(guk)), Head(nae)) == Some("ngn");
    assert "ngn" != JONG[1] + CHO[2] by {
      assert |JONG[1]| == 1 && |CHO[2]| == 1;
    }
    hide Romanized, Decompose, Merged;
    SplitsExactly(guk, nae);
  }

  lemma FinalCases(jong: nat, next: Option<char>)
    requires jong < 28
    ensures Meeting(jong, next).Some? ==>
              jong != 0 && Final(jong, next) == Meeting(jong, next).value && Final(jong, None) == JONG[jong]
    ensures Meeting(jong, next).None? ==> Final(jong, next) == Final(jong, None)
  {
    hide Merged;
  }

  lemma SplitsNonempty(a: string, b: string)
    requires a != ""
    ensures var meeting := Meeting(JongOf(Last(a)), Head(b));
            ReadAfter(None, a + b) == Romanized(a) + Romanized(b)
            <==> (meeting.Some? ==> meeting.value == JONG[JongOf(Last(a))] + CHO[Decompose(b[0]).cho])
  {
    hide Merged, Final, ReadAfter, Body, JongOf, Romanized, Decompose, Last;
    ReadConcat(None, a, b);
    ReadAlone(a);
    ReadAfterBoundary(Last(a), b);
    var body, rest, jong := Body(None, a), ReadAfter(Last(a), b), JongOf(Last(a));
    FinalCases(jong, Head(b));
    if Meeting(jong, Head(b)).Some? {
      CancelBoth(body, Final(jong, Head(b)), JONG[jong], CHO[Decompose(b[0]).cho], rest);
    } else {
      Regroup(body, Final(jong, None), rest);
    }
  }

  lemma ReadNothing(prev: Option<char>)
    ensures ReadAfter(prev, "") == ""
  {
  }

  lemma CancelBoth(body: string, merged: string, jong: string, cho: string, rest: string)
    ensures body + (merged + rest) == (body + jong) + (cho + rest) <==> merged == jong + cho
  {
    var left, right := body + (merged + rest), (body + jong) + (cho + rest);
    assert right == body + ((jong + cho) + rest);
    if left == right {
      assert |merged| == |jong + cho|;
      assert left[|body|..|body| + |merged|] == merged;
      assert right[|body|..|body| + |merged|] == jong + cho;
    }
  }

  /** A character that is no syllable always splits the reading. */
  lemma SplitsAtNonHangul(a: string, c: char, b: string)
    requires !IsHangul(c)
    ensures Romanized(a + [c] + b) == Romanized(a) + [c] + Romanized(b)
  {
    SplitsExactly(a, [c]);
    SplitsExactly(a + [c], b);
    assert [c][1..] == "";
    ReadNothing(Some(c));
    assert Romanized([c]) == [c] + "" == [c];
  }

  // ---- the loop as it runs ---------------------------------------------------------------------

  /** One step of the loop: settle the pending final, write this character, hold its own final back. */
  lemma ReadStep(prev: Option<char>, text: string, i: nat, out: string, pending: nat)
    requires i < |text| && pending == JongOf(prev)
    ensures var c, next := text[i], Head(text[i + 1..]);
            var merged := Meeting(pending, Some(c));
            var settled := out + Final(pending, Some(c));
            var read := if !IsHangul(c) then settled + [c]
              else (if merged.Some? then settled else settled + CHO[Decompose(c).cho]) + JUNG[Decompose(c).jung];
            out + (Final(pending, Head(text[i..])) + ReadAfter(prev, text[i..]))
            == read + (Final(JongOf(Some(c)), next) + ReadAfter(Some(c), text[i + 1..]))
  {
    var c, rest := text[i], text[i + 1..];
    var settled, core := out + Final(pending, Some(c)), Body(prev, [c]);
    ReadHead(prev, text, i);
    OnePiece(prev, [c], Head(rest));
    CoreParts(prev, c, settled);
    hide *;
    Weave(out, Final(pending, Some(c)), core, Final(JongOf(Some(c)), Head(rest)), ReadAfter(Some(c), rest));
  }

  lemma ReadHead(prev: Option<char>, text: string, i: nat)
    requires i < |text|
    ensures Head(text[i..]) == Some(text[i]) && Last([text[i]]) == Some(text[i])
    ensures ReadAfter(prev, text[i..])
            == Piece(prev, text[i], Head(text[i + 1..])) + ReadAfter(Some(text[i]), text[i + 1..])
  {
    hide Piece;
    assert text[i..][1..] == text[i + 1..];
  }

  /** One character without its final: a merged final stands for the initial as well. */
  lemma CoreParts(prev: Option<char>, c: char, settled: string)
    ensures settled + Body(prev, [c]) ==
            if !IsHangul(c) then settled + [c]
            else (if Meeting(JongOf(prev), Some(c)).Some? then settled else settled + CHO[Decompose(c).cho])
                 + JUNG[Decompose(c).jung]
  {
    hide Meeting, JongOf, Merged;
    if IsHangul(c) {
      var initial := if Meeting(JongOf(prev), Some(c)).Some? then "" else CHO[Decompose(c).cho];
      var vowel := JUNG[Decompose(c).jung];
      hide Decompose;
      assert settled + "" == settled;
      Regroup(settled, initial, vowel);
    }
  }

  lemma Weave(out: string, last: string, core: string, after: string, rest: string)
    ensures out + (last + ((core + after) + rest)) == out + last + core + (after + rest)
  {
    Regroup(core, after, rest);
    Regroup(last, core, after + rest);
    Regroup(out, last + core, after + rest);
    Regroup(out, last, core);
  }

  /** What the loop writes for one character after a held-back final. */
  method ReadOne(before: string, held: nat, c: char) returns (out: string, pending: nat)
    requires held < 28
    ensures var merged := Meeting(held, Some(c));
            var settled := before + Final(held, Some(c));
            out == if !IsHangul(c) then settled + [c]
              else (if merged.Some? then settled else settled + CHO[Decompose(c).cho]) + JUNG[Decompose(c).jung]
    ensures pending == JongOf(Some(c))
  {
    FinalCases(held, Some(c));
    hide Merged;
    out, pending := before, held;
    if IsHangul(c) {
      var index := c as int - SYLLABLES;
      var cho, jung, jong := index / (21 * 28), index % (21 * 28) / 28, index % 28;
      assert Decompose(c) == Jamo(cho, jung, jong);
      hide Decompose;
      var skipCho := false;
      if pending != 0 {
        var merged := Merged(pending, cho);
        if merged.Some? {
          out := out + merged.value;
          skipCho := true;
        } else {
          out := out + JONG[pending];
        }
      }
      assert out == before + Final(held, Some(c));
      if !skipCho {
        out := out + CHO[cho];
      }
      out := out + JUNG[jung];
      pending := jong;
    } else {
      if pending != 0 {
        out := out + JONG[pending];
        pending := 0;
      }
      out := out + [c];
    }
  }

  method RomanizeKorean(text: string) returns (out: string)
    ensures out == Romanized(text)
  {
    hide Merged, ReadAfter, Meeting, Decompose, JongOf;
    out := "";
    var pending: nat := 0;
    ghost var prev: Option<char> := None;
    var i := 0;
    assert text[0..] == text && JongOf(None) == 0 by { NoJong(); }
    while i < |text|
      invariant 0 <= i <= |text| && pending == JongOf(prev)
      invariant Romanized(text) == out + (Final(pending, Head(text[i..])) + ReadAfter(prev, text[i..]))
    {
      ReadStep(prev, text, i, out, pending);
      out, pending := ReadOne(out, pending, text[i]);
      prev := Some(text[i]);
      i := i + 1;
    }
    ReadNothing(prev);
    assert text[i..] == "";
    FinalCases(pending, None);
    if pending != 0 {
      out := out + JONG[pending];
    }
  }

  lemma NoJong()
    ensures JongOf(None) == 0
  {
  }
}
