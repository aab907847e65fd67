/**
 Devanagari and Gurmukhi romanization (crates/core/src/romanize.rs): cutting a text into letters by
 longest match, gathering syllables into words, and dropping the inherent vowel from right to left.
 */
module Indic {
  import opened Common

  /** A table row: a key of one or more characters and its reading. */
  datatype Row = Row(first: char, more: string, latin: string)
  {
    function Key(): string { [first] + more }
  }

  /** One Brahmic script. Keys of the consonant and other tables may span several characters. */
  datatype Script = Script(
    consonants: seq<Row>,
    vowelSigns: seq<(char, string)>,
    others: seq<Row>,
    virama: char,
    gemination: Option<char>,
    carriers: seq<(char, string)>,
    modifiers: seq<char>,
    vowels: seq<char>)

  const DEVANAGARI_LETTERS: seq<Row> := [
    Row('\U{0915}', "", "k"), Row('\U{0916}', "", "kh"), Row('\U{0917}', "", "g"), Row('\U{0918}', "", "gh"),
    Row('\U{0919}', "", "ng"), Row('\U{091A}', "", "ch"), Row('\U{091B}', "", "chh"),
    Row('\U{091C}', "", "j"), Row('\U{091D}', "", "jh"), Row('\U{091E}', "", "ny"), Row('\U{091F}', "", "t"),
    Row('\U{0920}', "", "th"), Row('\U{0921}', "", "d"), Row('\U{0922}', "", "dh"), Row('\U{0923}', "", "n"),
    Row('\U{0924}', "", "t"), Row('\U{0925}', "", "th"), Row('\U{0926}', "", "d"), Row('\U{0927}', "", "dh"),
    Row('\U{0928}', "", "n"), Row('\U{092A}', "", "p"), Row('\U{092B}', "", "ph"), Row('\U{092C}', "", "b"),
    Row('\U{092D}', "", "bh"), Row('\U{092E}', "", "m"), Row('\U{092F}', "", "y"), Row('\U{0930}', "", "r"),
    Row('\U{0932}', "", "l"), Row('\U{0935}', "", "v"), Row('\U{0936}', "", "sh"), Row('\U{0937}', "", "sh"),
    Row('\U{0938}', "", "s"), Row('\U{0939}', "", "h")]

  /** Conjuncts, and letters with a dot below. */
  const DEVANAGARI_CLUSTERS: seq<Row> := [
    Row('\U{0915}', "\U{094D}\U{0937}", "ksh"),
    Row('\U{0924}', "\U{094D}\U{0930}", "tr"), Row('\U{091C}', "\U{094D}\U{091E}", "gy"),
    Row('\U{0936}', "\U{094D}\U{0930}", "shr"), Row('\U{0915}', "\U{093C}", "q"),
    Row('\U{0916}', "\U{093C}", "kh"), Row('\U{0917}', "\U{093C}", "g"), Row('\U{091C}', "\U{093C}", "z"),
    Row('\U{0921}', "\U{093C}", "r"), Row('\U{0922}', "\U{093C}", "rh"), Row('\U{092B}', "\U{093C}", "f"),
    Row('\U{092F}', "\U{093C}", "y"), Row('\U{0915}', "\U{093C}", "q"), Row('\U{0916}', "\U{093C}", "kh"),
    Row('\U{0917}', "\U{093C}", "g"), Row('\U{091C}', "\U{093C}", "z"), Row('\U{0921}', "\U{093C}", "r"),
    Row('\U{0922}', "\U{093C}", "rh"), Row('\U{092B}', "\U{093C}", "f"), Row('\U{092F}', "\U{093C}", "y")]

  const DEVANAGARI := Script(
    DEVANAGARI_LETTERS + DEVANAGARI_CLUSTERS,
    [
      ('\U{093E}', "aa"), ('\U{093F}', "i"), ('\U{0940}', "ee"), ('\U{0941}', "u"), ('\U{0942}', "oo"),
      ('\U{0943}', "ri"), ('\U{0947}', "e"), ('\U{0948}', "ai"), ('\U{094B}', "o"), ('\U{094C}', "au")],
    [
      Row('\U{0905}', "", "a"), Row('\U{0906}', "", "aa"), Row('\U{0907}', "", "i"), Row('\U{0908}', "", "ee"),
      Row('\U{0909}', "", "u"), Row('\U{090A}', "", "oo"), Row('\U{090B}', "", "ri"), Row('\U{090F}', "", "e"),
      Row('\U{0910}', "", "ai"), Row('\U{0913}', "", "o"), Row('\U{0914}', "", "au"), Row('\U{0902}', "", "n"),
      Row('\U{0903}', "", "h"), Row('\U{0901}', "", "n"), Row('\U{093C}', "", ""), Row('\U{094D}', "", ""),
      Row('\U{0966}', "", "0"), Row('\U{0967}', "", "1"), Row('\U{0968}', "", "2"), Row('\U{0969}', "", "3"),
      Row('\U{096A}', "", "4"), Row('\U{096B}', "", "5"), Row('\U{096C}', "", "6"), Row('\U{096D}', "", "7"),
      Row('\U{096E}', "", "8"), Row('\U{096F}', "", "9"), Row('\U{0950}', "", "Om"), Row('\U{093D}', "", ""),
      Row('\U{0964}', "", "."), Row('\U{0965}', "", ".")],
    '\U{094D}',
    None,
    [],
    ['\U{0902}', '\U{0901}', '\U{0903}'],
    [
      '\U{0905}', '\U{0906}', '\U{0907}', '\U{0908}', '\U{0909}', '\U{090A}', '\U{090B}', '\U{090F}',
      '\U{0910}', '\U{0913}', '\U{0914}'])

  const GURMUKHI_LETTERS: seq<Row> := [
    Row('\U{0A38}', "", "s"), Row('\U{0A39}', "", "h"), Row('\U{0A15}', "", "k"), Row('\U{0A16}', "", "kh"),
    Row('\U{0A17}', "", "g"), Row('\U{0A18}', "", "gh"), Row('\U{0A19}', "", "ng"),
    Row('\U{0A1A}', "", "ch"), Row('\U{0A1B}', "", "chh"), Row('\U{0A1C}', "", "j"),
    Row('\U{0A1D}', "", "jh"), Row('\U{0A1E}', "", "ny"), Row('\U{0A1F}', "", "t"),
    Row('\U{0A20}', "", "th"), Row('\U{0A21}', "", "d"), Row('\U{0A22}', "", "dh"), Row('\U{0A23}', "", "n"),
    Row('\U{0A24}', "", "t"), Row('\U{0A25}', "", "th"), Row('\U{0A26}', "", "d"), Row('\U{0A27}', "", "dh"),
    Row('\U{0A28}', "", "n"), Row('\U{0A2A}', "", "p"), Row('\U{0A2B}', "", "ph"), Row('\U{0A2C}', "", "b"),
    Row('\U{0A2D}', "", "bh"), Row('\U{0A2E}', "", "m"), Row('\U{0A2F}', "", "y"), Row('\U{0A30}', "", "r"),
    Row('\U{0A32}', "", "l"), Row('\U{0A35}', "", "v"), Row('\U{0A5C}', "", "r")]

  /** Letters with a dot below. */
  const GURMUKHI_DOTTED: seq<Row> := [
    Row('\U{0A38}', "\U{0A3C}", "sh"), Row('\U{0A16}', "\U{0A3C}", "kh"), Row('\U{0A17}', "\U{0A3C}", "g"),
    Row('\U{0A1C}', "\U{0A3C}", "z"), Row('\U{0A2B}', "\U{0A3C}", "f"), Row('\U{0A32}', "\U{0A3C}", "l"),
    Row('\U{0A38}', "\U{0A3C}", "sh"), Row('\U{0A16}', "\U{0A3C}", "kh"), Row('\U{0A17}', "\U{0A3C}", "g"),
    Row('\U{0A1C}', "\U{0A3C}", "z"), Row('\U{0A2B}', "\U{0A3C}", "f"), Row('\U{0A32}', "\U{0A3C}", "l")]

  const GURMUKHI := Script(
    GURMUKHI_LETTERS + GURMUKHI_DOTTED,
    [
      ('\U{0A3E}', "aa"), ('\U{0A3F}', "i"), ('\U{0A40}', "ee"), ('\U{0A41}', "u"), ('\U{0A42}', "oo"),
      ('\U{0A47}', "e"), ('\U{0A48}', "ai"), ('\U{0A4B}', "o"), ('\U{0A4C}', "au")],
    [
      Row('\U{0A05}', "", "a"), Row('\U{0A06}', "", "aa"), Row('\U{0A07}', "", "i"), Row('\U{0A08}', "", "ee"),
      Row('\U{0A09}', "", "u"), Row('\U{0A0A}', "", "oo"), Row('\U{0A0F}', "", "e"), Row('\U{0A10}', "", "ai"),
      Row('\U{0A13}', "", "o"), Row('\U{0A14}', "", "au"), Row('\U{0A70}', "", "n"), Row('\U{0A02}', "", "n"),
      Row('\U{0A4D}', "", ""), Row('\U{0A3C}', "", ""), Row('\U{0A74}', "", "Ek Onkar"),
      Row('\U{0A66}', "", "0"), Row('\U{0A67}', "", "1"), Row('\U{0A68}', "", "2"), Row('\U{0A69}', "", "3"),
      Row('\U{0A6A}', "", "4"), Row('\U{0A6B}', "", "5"), Row('\U{0A6C}', "", "6"), Row('\U{0A6D}', "", "7"),
      Row('\U{0A6E}', "", "8"), Row('\U{0A6F}', "", "9")],
    '\U{0A4D}',
    Some('\U{0A71}'),
    [('\U{0A73}', "o"), ('\U{0A72}', "e")],
    ['\U{0A70}', '\U{0A02}'],
    [
      '\U{0A05}', '\U{0A06}', '\U{0A07}', '\U{0A08}', '\U{0A09}', '\U{0A0A}', '\U{0A0F}', '\U{0A10}',
      '\U{0A13}', '\U{0A14}'])

  // ---- lookups ---------------------------------------------------------------------------------

  /** The longest key the text begins with, the first of equals: its length and its reading. */
  function Longest(text: string, table: seq<Row>): (r: Option<(nat, string)>)
    ensures r.Some? ==> 0 < r.value.0 <= |text|
  {
    if table == [] then None
    else
      var best, row := Longest(text, table[..|table| - 1]), table[|table| - 1];
      if row.Key() <= text && (best.None? || |row.Key()| > best.value.0)
      then Some((|row.Key()|, row.latin)) else best
  }

  lemma {:induction false} LongestIsLongest(text: string, table: seq<Row>)
    ensures Longest(text, table).None? <==> forall i :: 0 <= i < |table| ==> !(table[i].Key() <= text)
    ensures Longest(text, table).Some? ==>
              var (len, latin) := Longest(text, table).value;
              && (forall i :: 0 <= i < |table| && table[i].Key() <= text ==> |table[i].Key()| <= len)
              && (exists i :: 0 <= i < |table| && table[i].Key() == text[..len] && table[i].latin == latin
                              && forall j :: 0 <= j < i ==> table[j].Key() != table[i].Key())
  {
    if table != [] {
      var front, n := table[..|table| - 1], |table| - 1;
      LongestIsLongest(text, front);
      var best := Longest(text, front);
      if best.Some? {
        var (len, latin) := best.value;
        var i :| 0 <= i < n && front[i].Key() == text[..len] && front[i].latin == latin
                 && forall j :: 0 <= j < i ==> front[j].Key() != front[i].Key();
        assert table[i] == front[i] && forall j :: 0 <= j < i ==> table[j] == front[j];
      }
      if Longest(text, table) != best {
        assert table[n].Key() == text[..|table[n].Key()|];
        assert forall j :: 0 <= j < n ==> table[j] == front[j];
      }
    }
  }

  function Lookup(c: char, table: seq<(char, string)>): Option<string> {
    if table == [] then None
    else if table[0].0 == c then Some(table[0].1)
    else Lookup(c, table[1..])
  }

  function SignAt(script: Script, text: string, i: nat): Option<string> {
    if i < |text| then Lookup(text[i], script.vowelSigns) else None
  }

  // ---- letters ---------------------------------------------------------------------------------

  datatype Vowel = Inherent | Sign(latin: string) | Dead

  datatype Letter =
    | Consonant(latin: string, vowel: Vowel)
    | Voice(latin: string)
    | Double
    | Other(first: char, latin: string)
    | Raw(c: char)

  /** The letter a text begins with, and how many characters it takes. */
  function NextLetter(script: Script, text: string): (r: (Letter, nat))
    requires text != ""
    ensures 0 < r.1 <= |text|
  {
    var c := text[0];
    match Longest(text, script.consonants)
    case Some((len, latin)) =>
      if len < |text| && text[len] == script.virama then (Consonant(latin, Dead), len + 1)
      else if SignAt(script, text, len).Some? then
        (Consonant(latin, Sign(SignAt(script, text, len).value)), len + 1)
      else (Consonant(latin, Inherent), len)
    case None =>
      match Lookup(c, script.carriers)
      case Some(alone) =>
        if SignAt(script, text, 1).Some? then (Voice(SignAt(script, text, 1).value), 2) else (Voice(alone), 1)
      case None =>
        if script.gemination == Some(c) then (Double, 1)
        else
          match Lookup(c, script.vowelSigns)
          case Some(sign) => (Voice(sign), 1)
          case None =>
            match Longest(text, script.others)
            case Some((len, latin)) => (Other(c, latin), len)
            case None => (Raw(c), 1)
  }

  /** A text as its letters, each with the characters it was read from. */
  function Letters(script: Script, text: string): seq<(Letter, string)>
    decreases |text|
  {
    if text == "" then []
    else
      var (letter, len) := NextLetter(script, text);
      [(letter, text[..len])] + Letters(script, text[len..])
  }

  function Sources(letters: seq<(Letter, string)>): string {
    if letters == [] then "" else letters[0].1 + Sources(letters[1..])
  }

  /** Every character is read once: the letters' sources put together are the text. */
  lemma {:induction false} LettersConserve(script: Script, text: string)
    ensures Sources(Letters(script, text)) == text
    decreases |text|
  {
    hide NextLetter;
    if text != "" {
      var (letter, len) := NextLetter(script, text);
      LettersConserve(script, text[len..]);
      PrefixRest(text, len);
    }
  }

  // ---- words -----------------------------------------------------------------------------------

  datatype Syllable = Syllable(consonant: string, doubled: bool, vowel: Vowel, tail: string)
  {
    predicate Voiced() { !vowel.Dead? }

    /** A consonant whose own vowel may be dropped. */
    predicate Droppable() { vowel.Inherent? && consonant != "" && tail == "" }
  }

  /** Whether syllable `i` loses its inherent vowel, decided from the end of the word. */
  function Silent(word: seq<Syllable>, i: nat): bool
    requires i < |word|
    decreases |word| - i
  {
    word[i].Droppable() &&
    if i == |word| - 1 then |word| > 1
    else i > 0 && word[i - 1].Voiced() && word[i + 1].consonant != "" && word[i + 1].Voiced()
         && !Silent(word, i + 1)
  }

  function Spell(s: Syllable, silent: bool): string {
    (if s.doubled && s.consonant != "" then [s.consonant[0]] else "") + s.consonant
    + (match s.vowel case Inherent => if silent then "" else "a" case Sign(latin) => latin case Dead => "")
    + s.tail
  }

  /** The first `n` syllables of a word, written. */
  function Written(word: seq<Syllable>, n: nat): string
    requires n <= |word|
  {
    if n == 0 then "" else Written(word, n - 1) + Spell(word[n - 1], Silent(word, n - 1))
  }

  function Flush(word: seq<Syllable>): string {
    Written(word, |word|)
  }

  /**
   Schwa deletion: never two in a row, never in the first syllable, and inside a word only between a
   voiced syllable and a voiced one that has its own consonant.
   */
  lemma SchwaRules(word: seq<Syllable>, i: nat)
    requires i < |word| && Silent(word, i)
    ensures i > 0 && word[i].Droppable()
    ensures i + 1 < |word| ==> !Silent(word, i + 1)
    ensures !Silent(word, i - 1)
    ensures i + 1 < |word| ==>
              word[i - 1].Voiced() && word[i + 1].Voiced() && word[i + 1].consonant != ""
  {
  }

  /** Syllable `i` may lose its vowel, as far as its neighbours as written decide. */
  predicate Eligible(word: seq<Syllable>, i: nat)
    requires i < |word|
  {
    word[i].Droppable() &&
    if i == |word| - 1 then |word| > 1
    else i > 0 && word[i - 1].Voiced() && word[i + 1].consonant != "" && word[i + 1].Voiced()
  }

  /** Where the run of eligible syllables from `i` on ends. */
  function RunEnd(word: seq<Syllable>, i: nat): (end: nat)
    requires i <= |word|
    ensures i <= end <= |word|
    decreases |word| - i
  {
    if i < |word| && Eligible(word, i) then RunEnd(word, i + 1) else i
  }

  /** In any word, the vowels dropped are every second one of a run of eligible syllables, from its end. */
  lemma {:induction false} SilentRuns(word: seq<Syllable>, i: nat)
    requires i < |word|
    ensures Silent(word, i) <==> (RunEnd(word, i) - i) % 2 == 1
    decreases |word| - i
  {
    if i + 1 < |word| {
      SilentRuns(word, i + 1);
    }
  }

  /** In a word of bare consonants, exactly every second vowel counted from the end is dropped. */
  lemma {:induction false} BareWordAlternates(word: seq<Syllable>, i: nat)
    requires i < |word| && forall k :: 0 <= k < |word| ==> word[k].Droppable()
    ensures Silent(word, i) <==> i > 0 && (|word| - 1 - i) % 2 == 0
    decreases |word| - i
  {
    if i + 1 < |word| {
      BareWordAlternates(word, i + 1);
      assert word[i].Droppable() && word[i + 1].Droppable();
      if i > 0 {
        assert word[i - 1].Droppable();
      }
    }
  }

  // ---- the reading -----------------------------------------------------------------------------

  /** What a letter does to the word in progress. `None` ends the word and writes the letter as it is. */
  function Attach(script: Script, word: seq<Syllable>, double: bool, letter: Letter): Option<seq<Syllable>> {
    match letter
    case Consonant(latin, vowel) => Some(word + [Syllable(latin, double, vowel, "")])
    case Voice(latin) => Some(word + [Syllable("", false, Sign(latin), "")])
    case Double => Some(word)
    case Other(c, latin) =>
      if c in script.modifiers && word != [] && word[|word| - 1].tail == "" then
        Some(word[..|word| - 1] + [word[|word| - 1].(tail := latin)])
      else if c in script.vowels then Some(word + [Syllable("", false, Sign(latin), "")])
      else None
    case Raw(_) => None
  }

  function Plain(letter: Letter): string {
    match letter
    case Other(_, latin) => latin
    case Raw(c) => [c]
    case _ => ""
  }

  function StillDouble(double: bool, letter: Letter): bool {
    if letter.Double? then true else if letter.Consonant? then false else double
  }

  /** The letters read with a word in progress and perhaps a doubling sign pending. */
  function Read(script: Script, letters: seq<(Letter, string)>, word: seq<Syllable>, double: bool): string {
    if letters == [] then Flush(word)
    else
      var letter, rest := letters[0].0, letters[1..];
      match Attach(script, word, double, letter)
      case Some(word') => Read(script, rest, word', StillDouble(double, letter))
      case None => Flush(word) + (Plain(letter) + Read(script, rest, [], StillDouble(double, letter)))
  }

  function Romanized(script: Script, text: string): string
  {
    Read(script, Letters(script, text), [], false)
  }

  /** Whether a doubling sign is still waiting for its consonant after these letters. */
  function Pending(letters: seq<(Letter, string)>, double: bool): bool {
    if letters == [] then double else Pending(letters[1..], StillDouble(double, letters[0].0))
  }

  // ---- where the reading splits ----------------------------------------------------------------

  /** A character no table of the script knows. */
  ghost predicate Foreign(script: Script, c: char) {
    && (forall i :: 0 <= i < |script.consonants| ==> c !in script.consonants[i].Key())
    && (forall i :: 0 <= i < |script.others| ==> c !in script.others[i].Key())
    && Lookup(c, script.vowelSigns).None?
    && Lookup(c, script.carriers).None?
    && c != script.virama
    && script.gemination != Some(c)
  }

  lemma KeyBefore(key: string, a: string, c: char, b: string)
    requires c !in key
    ensures key <= a + [c] + b <==> key <= a
  {
    if |key| > |a| {
      assert key[|a|] in key && (a + [c] + b)[|a|] == c;
    }
  }

  lemma {:induction false} LongestBefore(a: string, c: char, b: string, table: seq<Row>)
    requires forall i :: 0 <= i < |table| ==> c !in table[i].Key()
    ensures Longest(a + [c] + b, table) == Longest(a, table)
  {
    if table != [] {
      LongestBefore(a, c, b, table[..|table| - 1]);
      KeyBefore(table[|table| - 1].Key(), a, c, b);
    }
  }

  lemma NextLetterBefore(script: Script, a: string, c: char, b: string)
    requires Foreign(script, c) && a != ""
    ensures NextLetter(script, a + [c] + b) == NextLetter(script, a)
  {
    hide Longest, Lookup;
    LongestBefore(a, c, b, script.consonants);
    LongestBefore(a, c, b, script.others);
    var all := a + [c] + b;
    assert all[0] == a[0] && all[|a|] == c;
    assert forall i: nat :: i <= |a| ==> SignAt(script, all, i) == SignAt(script, a, i);
  }

  lemma ForeignIsRaw(script: Script, c: char, b: string)
    requires Foreign(script, c)
    ensures NextLetter(script, [c] + b) == (Raw(c), 1)
  {
    hide Lookup;
    LongestBefore("", c, b, script.consonants);
    LongestBefore("", c, b, script.others);
    assert "" + [c] + b == [c] + b;
    NothingMatchesEmpty(script.consonants);
    NothingMatchesEmpty(script.others);
  }

  lemma {:induction false} NothingMatchesEmpty(table: seq<Row>)
    ensures Longest("", table).None?
  {
    if table != [] {
      NothingMatchesEmpty(table[..|table| - 1]);
    }
  }

  lemma {:induction false} LettersSplit(script: Script, a: string, c: char, b: string)
    requires Foreign(script, c)
    ensures Letters(script, a + [c] + b) == Letters(script, a) + ([(Raw(c), [c])] + Letters(script, b))
    decreases |a|
  {
    hide NextLetter;
    var all := a + [c] + b;
    if a == "" {
      ForeignIsRaw(script, c, b);
      assert all == [c] + b && all[..1] == [c] && all[1..] == b;
    } else {
      NextLetterBefore(script, a, c, b);
      var (letter, len) := NextLetter(script, a);
      LettersSplit(script, a[len..], c, b);
      assert all[len..] == a[len..] + [c] + b && all[..len] == a[..len];
    }
  }

  lemma {:induction false} ReadSplit(
    script: Script, first: seq<(Letter, string)>, c: char, rest: seq<(Letter, string)>,
    word: seq<Syllable>, double: bool)
    ensures Read(script, first + ([(Raw(c), [c])] + rest), word, double)
            == Read(script, first, word, double) + ([c] + Read(script, rest, [], Pending(first, double)))
  {
    hide Flush;
    var tail := [(Raw(c), [c])] + rest;
    if first == [] {
      assert first + tail == tail && tail[1..] == rest;
    } else {
      assert (first + tail)[1..] == first[1..] + tail;
      var letter := first[0].0;
      var double' := StillDouble(double, letter);
      match Attach(script, word, double, letter)
      case Some(word') => ReadSplit(script, first[1..], c, rest, word', double');
      case None =>
        ReadSplit(script, first[1..], c, rest, [], double');
        Assoc4(Flush(word), Plain(letter), Read(script, first[1..], [], double'),
               [c] + Read(script, rest, [], Pending(first, double)));
    }
  }

  lemma Assoc4(a: string, b: string, c: string, d: string)
    ensures a + (b + (c + d)) == a + (b + c) + d
  {
  }

  /** `w'` is `w` with syllable `k` marked as doubled. */
  ghost predicate DoublesAt(w: seq<Syllable>, w': seq<Syllable>, k: nat) {
    |w| == |w'| && k < |w| && !w[k].doubled && w' == w[k := w[k].(doubled := true)]
  }

  lemma {:induction false} SilentIgnoresDoubling(w: seq<Syllable>, w': seq<Syllable>, k: nat, i: nat)
    requires DoublesAt(w, w', k) && i < |w|
    ensures Silent(w, i) == Silent(w', i)
    decreases |w| - i
  {
    if i + 1 < |w| {
      SilentIgnoresDoubling(w, w', k, i + 1);
    }
  }

  /** Marking a syllable as doubled writes one more character, or none if it has no consonant. */
  lemma {:induction false} WrittenGrows(w: seq<Syllable>, w': seq<Syllable>, k: nat, n: nat)
    requires DoublesAt(w, w', k) && n <= |w|
    ensures |Written(w', n)| == |Written(w, n)| + if k < n && w[k].consonant != "" then 1 else 0
    ensures w[k].consonant == "" ==> Written(w', n) == Written(w, n)
  {
    if n > 0 {
      WrittenGrows(w, w', k, n - 1);
      SilentIgnoresDoubling(w, w', k, n - 1);
    }
  }

  lemma {:induction false} ReadGrows(script: Script, letters: seq<(Letter, string)>,
                                     w: seq<Syllable>, w': seq<Syllable>, k: nat, double: bool)
    requires DoublesAt(w, w', k)
    ensures |Read(script, letters, w', double)|
            == |Read(script, letters, w, double)| + if w[k].consonant != "" then 1 else 0
    ensures w[k].consonant == "" ==> Read(script, letters, w', double) == Read(script, letters, w, double)
  {
    hide Written, Attach;
    WrittenGrows(w, w', k, |w|);
    if letters != [] {
      var letter := letters[0].0;
      var next, next' := Attach(script, w, double, letter), Attach(script, w', double, letter);
      AttachKeepsDoubling(script, w, w', k, double, letter);
      if next.Some? {
        ReadGrows(script, letters[1..], next.value, next'.value, k, StillDouble(double, letter));
      }
    }
  }

  lemma AttachKeepsDoubling(script: Script, w: seq<Syllable>, w': seq<Syllable>, k: nat, double: bool, letter: Letter)
    requires DoublesAt(w, w', k)
    ensures var next, next' := Attach(script, w, double, letter), Attach(script, w', double, letter);
            (next.None? && next'.None?) ||
            (next.Some? && next'.Some? && DoublesAt(next.value, next'.value, k)
             && next.value[k].consonant == w[k].consonant)
  {
  }

  /** The next letter that would use up a pending doubling sign is a consonant with a reading. */
  predicate TakesDoubling(letters: seq<(Letter, string)>) {
    letters != [] &&
    match letters[0].0
    case Consonant(latin, _) => latin != ""
    case Double => false
    case _ => TakesDoubling(letters[1..])
  }

  lemma {:induction false} PendingMatters(script: Script, letters: seq<(Letter, string)>, word: seq<Syllable>)
    ensures Read(script, letters, word, true) == Read(script, letters, word, false) <==> !TakesDoubling(letters)
    ensures |Read(script, letters, word, true)|
            == |Read(script, letters, word, false)| + if TakesDoubling(letters) then 1 else 0
  {
    hide Flush;
    if letters != [] {
      var letter, rest := letters[0].0, letters[1..];
      match letter {
        case Consonant(latin, vowel) =>
          var plain := word + [Syllable(latin, false, vowel, "")];
          var doubled := word + [Syllable(latin, true, vowel, "")];
          assert DoublesAt(plain, doubled, |word|);
          ReadGrows(script, rest, plain, doubled, |word|, false);
        case Double =>
        case _ =>
          var next := Attach(script, word, true, letter);
          assert next == Attach(script, word, false, letter);
          PendingMatters(script, rest, if next.Some? then next.value else []);
          if next.None? {
            CancelFront(Flush(word) + Plain(letter), Read(script, rest, [], true), Read(script, rest, [], false));
          }
      }
    }
  }

  lemma CancelFront(front: string, x: string, y: string)
    ensures front + x == front + y <==> x == y
  {
    assert (front + x)[|front|..] == x && (front + y)[|front|..] == y;
  }

  /**
   A foreign character ends the word and is copied; only a pending doubling sign reaches past it. The
   two sides read as they would alone exactly when none is pending or nothing would use it.
   */
  lemma SplitsAtForeign(script: Script, a: string, c: char, b: string)
    requires Foreign(script, c)
    ensures var pending := Pending(Letters(script, a), false);
            && Romanized(script, a + [c] + b)
               == Romanized(script, a) + ([c] + Read(script, Letters(script, b), [], pending))
            && (Romanized(script, a + [c] + b) == Romanized(script, a) + ([c] + Romanized(script, b))
                <==> !pending || !TakesDoubling(Letters(script, b)))
  {
    hide Letters, Read, Foreign;
    LettersSplit(script, a, c, b);
    ReadSplit(script, Letters(script, a), c, Letters(script, b), [], false);
    PendingMatters(script, Letters(script, b), []);
    var pending := Pending(Letters(script, a), false);
    var x, y := Read(script, Letters(script, b), [], pending), Romanized(script, b);
    CancelFront(Romanized(script, a), [c] + x, [c] + y);
    CancelFront([c], x, y);
  }

  // ---- the two scripts -------------------------------------------------------------------------

  lemma {:induction false} NothingPends(script: Script, text: string)
    requires script.gemination.None?
    ensures !Pending(Letters(script, text), false)
    decreases |text|
  {
    if text != "" {
      var (letter, len) := NextLetter(script, text);
      assert !letter.Double?;
      NothingPends(script, text[len..]);
    }
  }

  /** A script without a doubling sign splits at every foreign character. */
  lemma WithoutDoublingAllSplits(script: Script, a: string, c: char, b: string)
    requires script.gemination.None? && Foreign(script, c)
    ensures Romanized(script, a + [c] + b) == Romanized(script, a) + ([c] + Romanized(script, b))
  {
    hide *;
    NothingPends(script, a);
    SplitsAtForeign(script, a, c, b);
  }

  predicate InBlock(c: char, first: int) {
    first <= c as int < first + 0x80
  }

  ghost predicate RowsInBlock(rows: seq<Row>, first: int) {
    forall i :: 0 <= i < |rows| ==> RowInBlock(rows[i], first)
  }

  ghost predicate RowInBlock(row: Row, first: int) {
    InBlock(row.first, first) && forall j :: 0 <= j < |row.more| ==> InBlock(row.more[j], first)
  }

  ghost predicate PairsInBlock(pairs: seq<(char, string)>, first: int) {
    forall pair :: pair in pairs ==> InBlock(pair.0, first)
  }

  lemma {:induction false} LookupInBlock(c: char, pairs: seq<(char, string)>, first: int)
    requires PairsInBlock(pairs, first) && !InBlock(c, first)
    ensures Lookup(c, pairs).None?
  {
    if pairs != [] {
      assert pairs[0] in pairs && forall pair :: pair in pairs[1..] ==> pair in pairs;
      LookupInBlock(c, pairs[1..], first);
    }
  }

  /** A script whose tables stay inside one Unicode block knows no character outside it. */
  lemma OutsideBlockIsForeign(script: Script, c: char, first: int)
    requires RowsInBlock(script.consonants, first) && RowsInBlock(script.others, first)
    requires PairsInBlock(script.vowelSigns, first) && PairsInBlock(script.carriers, first)
    requires InBlock(script.virama, first) && (script.gemination.Some? ==> InBlock(script.gemination.value, first))
    requires !InBlock(c, first)
    ensures Foreign(script, c)
  {
    LookupInBlock(c, script.vowelSigns, first);
    LookupInBlock(c, script.carriers, first);
    RowsLack(script.consonants, c, first);
    RowsLack(script.others, c, first);
  }

  lemma RowsLack(rows: seq<Row>, c: char, first: int)
    requires RowsInBlock(rows, first) && !InBlock(c, first)
    ensures forall i :: 0 <= i < |rows| ==> c !in rows[i].Key()
  {
    forall i | 0 <= i < |rows| ensures c !in rows[i].Key() {
      assert RowInBlock(rows[i], first);
    }
  }

  const DEVANAGARI_BLOCK := 0x0900
  const GURMUKHI_BLOCK := 0x0A00

  lemma DevanagariLetters()
    ensures RowsInBlock(DEVANAGARI_LETTERS, DEVANAGARI_BLOCK)
  {
  }

  lemma DevanagariClusters()
    ensures RowsInBlock(DEVANAGARI_CLUSTERS, DEVANAGARI_BLOCK)
  {
  }

  lemma DevanagariOthers()
    ensures RowsInBlock(DEVANAGARI.others, DEVANAGARI_BLOCK)
  {
  }

  lemma DevanagariRest()
    ensures PairsInBlock(DEVANAGARI.vowelSigns, DEVANAGARI_BLOCK) && DEVANAGARI.carriers == []
    ensures InBlock(DEVANAGARI.virama, DEVANAGARI_BLOCK) && DEVANAGARI.gemination.None?
    ensures DEVANAGARI.consonants == DEVANAGARI_LETTERS + DEVANAGARI_CLUSTERS
  {
  }

  /** Hindi splits at every character outside the Devanagari block. */
  lemma DevanagariSplits(a: string, c: char, b: string)
    requires !InBlock(c, DEVANAGARI_BLOCK)
    ensures Romanized(DEVANAGARI, a + [c] + b) == Romanized(DEVANAGARI, a) + ([c] + Romanized(DEVANAGARI, b))
  {
    hide Romanized, InBlock, RowInBlock, DEVANAGARI, DEVANAGARI_LETTERS, DEVANAGARI_CLUSTERS, Foreign;
    DevanagariLetters();
    DevanagariClusters();
    DevanagariOthers();
    DevanagariRest();
    OutsideBlockIsForeign(DEVANAGARI, c, DEVANAGARI_BLOCK);
    WithoutDoublingAllSplits(DEVANAGARI, a, c, b);
  }

  lemma GurmukhiLetters()
    ensures RowsInBlock(GURMUKHI_LETTERS, GURMUKHI_BLOCK)
  {
  }

  lemma GurmukhiDotted()
    ensures RowsInBlock(GURMUKHI_DOTTED, GURMUKHI_BLOCK)
  {
  }

  lemma GurmukhiConsonants()
    ensures RowsInBlock(GURMUKHI.consonants, GURMUKHI_BLOCK)
  {
    GurmukhiLetters();
    GurmukhiDotted();
    assert GURMUKHI.consonants == GURMUKHI_LETTERS + GURMUKHI_DOTTED;
    hide GURMUKHI, GURMUKHI_LETTERS, GURMUKHI_DOTTED, RowInBlock;
  }

  lemma GurmukhiOthers()
    ensures RowsInBlock(GURMUKHI.others, GURMUKHI_BLOCK)
  {
  }

  lemma GurmukhiSigns()
    ensures PairsInBlock(GURMUKHI.vowelSigns, GURMUKHI_BLOCK)
    ensures InBlock(GURMUKHI.virama, GURMUKHI_BLOCK)
    ensures GURMUKHI.gemination == Some(ADDAK) && InBlock(ADDAK, GURMUKHI_BLOCK)
  {
  }

  lemma GurmukhiCarriers()
    ensures PairsInBlock(GURMUKHI.carriers, GURMUKHI_BLOCK) && Lookup(ADDAK, GURMUKHI.carriers).None?
  {
    var carriers := [('\U{0A73}', "o"), ('\U{0A72}', "e")];
    assert GURMUKHI.carriers == carriers;
    hide GURMUKHI;
    assert carriers[1..] == [('\U{0A72}', "e")] && carriers[1..][1..] == [];
  }

  /** Punjabi splits there unless an addak is pending and a consonant takes it. */
  lemma GurmukhiSplits(a: string, c: char, b: string)
    requires !InBlock(c, GURMUKHI_BLOCK)
    ensures Romanized(GURMUKHI, a + [c] + b) == Romanized(GURMUKHI, a) + ([c] + Romanized(GURMUKHI, b))
            <==> !Pending(Letters(GURMUKHI, a), false) || !TakesDoubling(Letters(GURMUKHI, b))
  {
    hide Romanized, InBlock, RowsInBlock, PairsInBlock, GURMUKHI, Foreign, Letters, Pending, TakesDoubling;
    GurmukhiConsonants();
    GurmukhiOthers();
    GurmukhiSigns();
    GurmukhiCarriers();
    OutsideBlockIsForeign(GURMUKHI, c, GURMUKHI_BLOCK);
    SplitsAtForeign(GURMUKHI, a, c, b);
  }

  const ADDAK := '\U{0A71}'
  const KA := '\U{0A15}'

  /** An addak at the end of a word doubles the first consonant of the next one. */
  lemma AddakReachesPastSpace()
    ensures Romanized(GURMUKHI, [ADDAK] + [' '] + [KA])
            != Romanized(GURMUKHI, [ADDAK]) + ([' '] + Romanized(GURMUKHI, [KA]))
  {
    AddakPends();
    KaTakesDoubling();
    assert !InBlock(' ', GURMUKHI_BLOCK);
    hide *;
    GurmukhiSplits([ADDAK], ' ', [KA]);
  }

  lemma AddakPends()
    ensures Pending(Letters(GURMUKHI, [ADDAK]), false)
  {
    NoKeyBeginsWithAddak();
    GurmukhiSigns();
    GurmukhiCarriers();
    hide GURMUKHI, Longest, Lookup;
    assert NextLetter(GURMUKHI, [ADDAK]) == (Double, 1);
    hide NextLetter;
    assert [ADDAK][1..] == [] && Letters(GURMUKHI, []) == [];
    assert Letters(GURMUKHI, [ADDAK]) == [(Double, [ADDAK][..1])];
  }

  lemma NoKeyBeginsWithAddak()
    ensures Longest([ADDAK], GURMUKHI.consonants).None?
  {
    forall i | 0 <= i < |GURMUKHI.consonants| ensures !(GURMUKHI.consonants[i].Key() <= [ADDAK]) {
      assert GURMUKHI.consonants[i].Key()[0] == GURMUKHI.consonants[i].first;
      assert GURMUKHI.consonants[i].first != ADDAK;
    }
    hide GURMUKHI;
    LongestIsLongest([ADDAK], GURMUKHI.consonants);
  }

  lemma KaTakesDoubling()
    ensures TakesDoubling(Letters(GURMUKHI, [KA]))
  {
    var i := KaIsListed();
    var table := GURMUKHI.consonants;
    hide GURMUKHI;
    LongestIsLongest([KA], table);
    assert table[i].Key() <= [KA];
    assert Longest([KA], table).Some? && Longest([KA], table).value.1 != "";
    hide Longest;
    assert NextLetter(GURMUKHI, [KA]).0.Consonant?;
    hide NextLetter;
    assert Letters(GURMUKHI, [KA])[0].0 == NextLetter(GURMUKHI, [KA]).0;
  }

  lemma KaIsListed() returns (i: nat)
    ensures i < |GURMUKHI.consonants| && GURMUKHI.consonants[i].Key() == [KA]
    ensures forall k :: 0 <= k < |GURMUKHI.consonants| ==> GURMUKHI.consonants[k].latin != ""
  {
    i := 2;
    assert GURMUKHI.consonants[2] == Row(KA, "", "k");
  }

  // ---- the loops as they run -------------------------------------------------------------------

  method FlushWord(word: seq<Syllable>) returns (out: string)
    ensures out == Flush(word)
  {
    var n := |word|;
    var silent := new bool[n](_ => false);
    var i := n;
    while i > 0
      invariant 0 <= i <= n
      invariant forall k :: i <= k < n ==> silent[k] == Silent(word, k)
      invariant forall k :: 0 <= k < i ==> !silent[k]
    {
      i := i - 1;
      var s := word[i];
      if s.vowel.Inherent? && s.consonant != "" && s.tail == "" {
        silent[i] := if i == n - 1 then n > 1
                     else i > 0 && word[i - 1].Voiced() && word[i + 1].consonant != ""
                          && word[i + 1].Voiced() && !silent[i + 1];
      }
    }
    hide Silent, Spell;
    out := "";
    i := 0;
    while i < n
      invariant 0 <= i <= n && out == Written(word, i)
      invariant forall k :: 0 <= k < n ==> silent[k] == Silent(word, k)
    {
      out := out + Spell(word[i], silent[i]);
      i := i + 1;
    }
  }

  method RomanizeIndic(script: Script, text: string) returns (out: string)
    ensures out == Romanized(script, text)
  {
    hide NextLetter, Flush;
    out := "";
    var word: seq<Syllable> := [];
    var doubleNext := false;
    var i := 0;
    assert text[0..] == text;
    while i < |text|
      invariant 0 <= i <= |text|
      invariant Romanized(script, text) == out + Read(script, Letters(script, text[i..]), word, doubleNext)
      decreases |text| - i
    {
      var (letter, len) := NextLetter(script, text[i..]);
      LettersStep(script, text, i);
      ghost var before := word;
      var attached := Attach(script, word, doubleNext, letter);
      if attached.Some? {
        word := attached.value;
      } else {
        var flushed := FlushWord(word);
        out := out + flushed + Plain(letter);
        word := [];
      }
      doubleNext := StillDouble(doubleNext, letter);
      i := i + len;
    }
    assert text[i..] == "";
    var flushed := FlushWord(word);
    out := out + flushed;
  }

  lemma LettersStep(script: Script, text: string, i: nat)
    requires i < |text|
    ensures var (letter, len) := NextLetter(script, text[i..]);
            var letters := Letters(script, text[i..]);
            i + len <= |text| && letters != [] && letters[0].0 == letter
            && letters[1..] == Letters(script, text[i + len..])
  {
    hide NextLetter;
    var (letter, len) := NextLetter(script, text[i..]);
    assert text[i..][len..] == text[i + len..];
  }
}
