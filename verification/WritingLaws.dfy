/**
 What a word is written as, apart from the rule that writes it, and words from the romanizer's own
 documentation and tests.
 */
module WritingLaws {
  import opened Common
  import opened Indic

  // ---- silent vowels are the ones left out -----------------------------------------------------

  /** The word with its schwas decided: a silent one is no vowel, any other is a written "a". */
  function Settled(word: seq<Syllable>): (settled: seq<Syllable>)
    ensures |settled| == |word|
  {
    seq(|word|, i requires 0 <= i < |word| =>
      if !word[i].vowel.Inherent? then word[i]
      else word[i].(vowel := if Silent(word, i) then Dead else Sign("a")))
  }

  /** A word is written as the word with its schwas decided, which leaves nothing to the rule. */
  lemma {:induction false} WritingDropsSilent(word: seq<Syllable>, n: nat)
    requires n <= |word|
    ensures Written(word, n) == Written(Settled(word), n)
  {
    if n > 0 {
      WritingDropsSilent(word, n - 1);
    }
  }

  /** A syllable with a written vowel or none: consonant, doubled where marked, vowel, tail. */
  function Literal(s: Syllable): string {
    (if s.doubled then s.consonant[..Min(1, |s.consonant|)] else "")
    + s.consonant + (if s.vowel.Sign? then s.vowel.latin else "") + s.tail
  }

  function Literals(word: seq<Syllable>): string {
    if word == [] then "" else Literals(word[..|word| - 1]) + Literal(word[|word| - 1])
  }

  /** A word without schwas is written letter by letter. */
  lemma {:induction false} WritingIsLiteral(word: seq<Syllable>, n: nat)
    requires n <= |word| && forall i :: 0 <= i < |word| ==> !word[i].vowel.Inherent?
    ensures Written(word, n) == Literals(word[..n])
  {
    if n > 0 {
      WritingIsLiteral(word, n - 1);
      PrefixStep(word, n - 1);
      var s := word[n - 1];
      assert s.consonant != "" ==> s.consonant[..1] == [s.consonant[0]];
      assert s.consonant == "" ==> s.consonant[..0] == "";
    }
  }

  /** So any word is the letters of its settled form. */
  lemma FlushIsSettled(word: seq<Syllable>)
    ensures Flush(word) == Literals(Settled(word))
  {
    WritingDropsSilent(word, |word|);
    WritingIsLiteral(Settled(word), |word|);
    hide Written, Literals, Settled;
    assert Settled(word)[..|word|] == Settled(word);
  }

  // ---- how letters are read --------------------------------------------------------------------

  lemma {:induction false} LookupAt(c: char, pairs: seq<(char, string)>, i: nat)
    requires i < |pairs| && pairs[i].0 == c && forall j :: 0 <= j < i ==> pairs[j].0 != c
    ensures Lookup(c, pairs) == Some(pairs[i].1)
  {
    if i > 0 {
      LookupAt(c, pairs[1..], i - 1);
    }
  }

  lemma {:induction false} LookupNone(c: char, pairs: seq<(char, string)>)
    requires forall j :: 0 <= j < |pairs| ==> pairs[j].0 != c
    ensures Lookup(c, pairs) == None
  {
    if pairs != [] {
      LookupNone(c, pairs[1..]);
    }
  }

  /** A consonant takes a virama or a vowel sign after it with it, and keeps its own vowel before anything else. */
  lemma ConsonantReads(script: Script, text: string, len: nat, latin: string)
    requires text != "" && Longest(text, script.consonants) == Some((len, latin))
    ensures len < |text| && text[len] == script.virama ==>
              NextLetter(script, text) == (Consonant(latin, Dead), len + 1)
    ensures len < |text| && text[len] != script.virama && Lookup(text[len], script.vowelSigns).Some? ==>
              NextLetter(script, text) == (Consonant(latin, Sign(Lookup(text[len], script.vowelSigns).value)), len + 1)
    ensures len == |text| || (text[len] != script.virama && Lookup(text[len], script.vowelSigns).None?) ==>
              NextLetter(script, text) == (Consonant(latin, Inherent), len)
  {
    hide Longest, Lookup;
  }

  /**
   What is no consonant: a carrier takes the vowel sign after it or stands for its own vowel, a doubling
   sign doubles, a lone vowel sign is that vowel, a listed mark reads as listed, and anything else is
   copied.
   */
  lemma OthersRead(script: Script, text: string)
    requires text != "" && Longest(text, script.consonants).None?
    ensures var c, carrier := text[0], Lookup(text[0], script.carriers);
            var sign := if |text| > 1 then Lookup(text[1], script.vowelSigns) else None;
            && (carrier.Some? && sign.Some? ==> NextLetter(script, text) == (Voice(sign.value), 2))
            && (carrier.Some? && sign.None? ==> NextLetter(script, text) == (Voice(carrier.value), 1))
            && (carrier.None? && script.gemination == Some(c) ==> NextLetter(script, text) == (Double, 1))
            && (carrier.None? && script.gemination != Some(c) && Lookup(c, script.vowelSigns).Some? ==>
                  NextLetter(script, text) == (Voice(Lookup(c, script.vowelSigns).value), 1))
            && (carrier.None? && script.gemination != Some(c) && Lookup(c, script.vowelSigns).None? ==>
                  NextLetter(script, text)
                  == match Longest(text, script.others)
                     case Some((len, latin)) => (Other(c, latin), len)
                     case None => (Raw(c), 1))
  {
    hide Longest, Lookup;
  }

  /** What is left of a reading after the letters so far. */
  function Rest(script: Script, text: string, word: seq<Syllable>, double: bool): string {
    Read(script, Letters(script, text), word, double)
  }

  lemma ReadLetter(script: Script, text: string, word: seq<Syllable>, double: bool, letter: Letter, len: nat)
    requires text != "" && NextLetter(script, text) == (letter, len)
    ensures var next := Attach(script, word, double, letter);
            Rest(script, text, word, double) ==
              if next.Some? then Rest(script, text[len..], next.value, StillDouble(double, letter))
              else Flush(word) + (Plain(letter) + Rest(script, text[len..], [], StillDouble(double, letter)))
  {
    hide NextLetter, Attach;
    var letters := Letters(script, text);
    assert letters[0].0 == letter && letters[1..] == Letters(script, text[len..]);
  }

  lemma ReadEnd(script: Script, word: seq<Syllable>, double: bool)
    ensures Rest(script, "", word, double) == Flush(word)
  {
  }

  // ---- plain consonants of the two scripts -----------------------------------------------------

  ghost predicate OnlyRow(rows: seq<Row>, i: nat) {
    i < |rows| && forall k :: 0 <= k < |rows| && rows[k].first == rows[i].first ==> k == i
  }

  /** Keys of one character come first, longer ones begin with a letter and one of a few signs. */
  ghost predicate Splits(rows: seq<Row>, n: nat, signs: set<char>) {
    n <= |rows| && (forall k :: 0 <= k < n ==> rows[k].more == "")
    && (forall k :: n <= k < |rows| ==> rows[k].more != "" && rows[k].more[0] in signs)
  }

  lemma LongRowsMiss(rows: seq<Row>, n: nat, signs: set<char>, text: string)
    requires Splits(rows, n, signs) && (|text| > 1 ==> text[1] !in signs)
    ensures forall k :: n <= k < |rows| ==> !(rows[k].Key() <= text)
  {
    forall k | n <= k < |rows| ensures !(rows[k].Key() <= text) {
      assert rows[k].Key()[1] == rows[k].more[0];
    }
  }

  /** A letter that begins no longer key of the text is read by its own row. */
  lemma PlainRow(rows: seq<Row>, n: nat, signs: set<char>, i: nat, text: string)
    requires Splits(rows, n, signs) && OnlyRow(rows[..n], i) && text != "" && text[0] == rows[i].first
    requires forall k :: n <= k < |rows| ==> !(rows[k].Key() <= text)
    ensures Longest(text, rows) == Some((1, rows[i].latin))
  {
    LongestIsLongest(text, rows);
    hide Longest;
    assert rows[i].Key() == [text[0]] && [text[0]] <= text;
    var (len, latin) := Longest(text, rows).value;
    var k :| 0 <= k < |rows| && rows[k].Key() == text[..len] && rows[k].latin == latin;
    assert rows[k].Key() <= text;
    assert rows[..n][k].first == rows[k].Key()[0] == rows[..n][i].first;
  }

  const VIRAMA := '\U{094D}'
  const NUKTA := '\U{093C}'
  const GURMUKHI_NUKTA := '\U{0A3C}'

  lemma DevanagariShape()
    ensures Splits(DEVANAGARI_LETTERS + DEVANAGARI_CLUSTERS, |DEVANAGARI_LETTERS|, {VIRAMA, NUKTA})
    ensures |DEVANAGARI_LETTERS| == 33
  {
    DevanagariLettersPlain();
    DevanagariClustersLong();
    hide DEVANAGARI_LETTERS, DEVANAGARI_CLUSTERS;
  }

  lemma DevanagariLettersPlain()
    ensures |DEVANAGARI_LETTERS| == 33 && forall k :: 0 <= k < |DEVANAGARI_LETTERS| ==> DEVANAGARI_LETTERS[k].more == ""
  {
  }

  lemma DevanagariClustersLong()
    ensures forall k :: 0 <= k < |DEVANAGARI_CLUSTERS| ==>
              DEVANAGARI_CLUSTERS[k].more != "" && DEVANAGARI_CLUSTERS[k].more[0] in {VIRAMA, NUKTA}
  {
  }

  const KA := '\U{0915}'
  const MA := '\U{092E}'
  const LA := '\U{0932}'
  const TA := '\U{0924}'
  const SA := '\U{0938}'
  const U := '\U{0941}'
  const E := '\U{0947}'

  lemma RowOfKa()
    ensures OnlyRow(DEVANAGARI_LETTERS, 0) && DEVANAGARI_LETTERS[0] == Row(KA, "", "k")
  {
  }

  lemma RowOfTa()
    ensures OnlyRow(DEVANAGARI_LETTERS, 15) && DEVANAGARI_LETTERS[15] == Row(TA, "", "t")
  {
  }

  lemma RowOfMa()
    ensures OnlyRow(DEVANAGARI_LETTERS, 24) && DEVANAGARI_LETTERS[24] == Row(MA, "", "m")
  {
  }

  lemma RowOfLa()
    ensures OnlyRow(DEVANAGARI_LETTERS, 27) && DEVANAGARI_LETTERS[27] == Row(LA, "", "l")
  {
  }

  lemma RowOfSa()
    ensures OnlyRow(DEVANAGARI_LETTERS, 31) && DEVANAGARI_LETTERS[31] == Row(SA, "", "s")
  {
  }

  lemma RowOfNa()
    ensures OnlyRow(DEVANAGARI_LETTERS, 19) && DEVANAGARI_LETTERS[19] == Row(NA, "", "n")
  {
  }

  const NA := '\U{0928}'

  lemma DevanagariSigns()
    ensures Lookup(U, DEVANAGARI.vowelSigns) == Some("u") && Lookup(E, DEVANAGARI.vowelSigns) == Some("e")
    ensures DEVANAGARI.virama == VIRAMA
  {
    var signs := DEVANAGARI.vowelSigns;
    assert signs[3] == (U, "u") && signs[6] == (E, "e") && |signs| == 10;
    assert forall j :: 0 <= j < 3 ==> signs[j].0 != U;
    assert forall j :: 0 <= j < 6 ==> signs[j].0 != E;
    LookupAt(U, signs, 3);
    LookupAt(E, signs, 6);
  }

  lemma LettersAreNoSigns(c: char)
    requires c in {KA, MA, LA, TA, SA, NA}
    ensures Lookup(c, DEVANAGARI.vowelSigns) == None && c !in {VIRAMA, NUKTA}
  {
    var signs := DEVANAGARI.vowelSigns;
    assert forall j :: 0 <= j < |signs| ==> signs[j].0 != c;
    LookupNone(c, signs);
  }

  function PlaceOf(c: char): nat {
    if c == KA then 0 else if c == TA then 15 else if c == NA then 19 else if c == MA then 24
    else if c == LA then 27 else 31
  }

  /** The row of one of these letters. */
  lemma LetterRow(c: char, text: string) returns (i: nat)
    requires c in {KA, MA, LA, TA, SA, NA} && text != "" && text[0] == c
    requires (|text| > 1 ==> text[1] !in {VIRAMA, NUKTA}) || (c == SA && text[1] == VIRAMA)
    ensures i < |DEVANAGARI_LETTERS| && DEVANAGARI_LETTERS[i].first == c
    ensures i == PlaceOf(c)
    ensures Longest(text, DEVANAGARI.consonants) == Some((1, DEVANAGARI_LETTERS[i].latin))
  {
    RowOfKa();
    RowOfTa();
    RowOfNa();
    RowOfMa();
    RowOfLa();
    RowOfSa();
    DevanagariShape();
    DevanagariRest();
    NoClusterOfSa();
    i := PlaceOf(c);
    hide DEVANAGARI, DEVANAGARI_LETTERS, DEVANAGARI_CLUSTERS, OnlyRow, Splits, Longest;
    var rows := DEVANAGARI_LETTERS + DEVANAGARI_CLUSTERS;
    assert rows[..33] == DEVANAGARI_LETTERS;
    if |text| > 1 && text[1] == VIRAMA {
      forall k | 33 <= k < |rows| ensures !(rows[k].Key() <= text) {
        assert rows[k] == DEVANAGARI_CLUSTERS[k - 33] && rows[k].Key()[0] == rows[k].first;
      }
    } else {
      LongRowsMiss(rows, 33, {VIRAMA, NUKTA}, text);
    }
    PlainRow(rows, 33, {VIRAMA, NUKTA}, i, text);
  }

  lemma NoClusterOfSa()
    ensures forall k :: 0 <= k < |DEVANAGARI_CLUSTERS| ==> DEVANAGARI_CLUSTERS[k].first != SA
  {
  }

  // ---- documented Hindi words ------------------------------------------------------------------

  function LatinOf(c: char): string {
    if c == KA then "k" else if c == TA then "t" else if c == NA then "n" else if c == MA then "m"
    else if c == LA then "l" else "s"
  }

  /** One of these letters in a Hindi word, with what comes after it. */
  lemma Takes(c: char, text: string, word: seq<Syllable>)
    requires c in {KA, MA, LA, TA, SA, NA} && text != "" && text[0] == c
    requires (|text| > 1 ==> text[1] !in {VIRAMA, NUKTA}) || (c == SA && text[1] == VIRAMA)
    ensures |text| > 1 && text[1] == VIRAMA ==>
              Rest(DEVANAGARI, text, word, false)
              == Rest(DEVANAGARI, text[2..], word + [Syllable(LatinOf(c), false, Dead, "")], false)
    ensures |text| > 1 && text[1] != VIRAMA && Lookup(text[1], DEVANAGARI.vowelSigns).Some? ==>
              Rest(DEVANAGARI, text, word, false)
              == Rest(DEVANAGARI, text[2..],
                   word + [Syllable(LatinOf(c), false, Sign(Lookup(text[1], DEVANAGARI.vowelSigns).value), "")], false)
    ensures |text| == 1 || (text[1] != VIRAMA && Lookup(text[1], DEVANAGARI.vowelSigns).None?) ==>
              Rest(DEVANAGARI, text, word, false)
              == Rest(DEVANAGARI, text[1..], word + [Syllable(LatinOf(c), false, Inherent, "")], false)
  {
    var i := LetterRow(c, text);
    RowReads(c, i);
    DevanagariSigns();
    hide DEVANAGARI, DEVANAGARI_LETTERS, Longest, Lookup, Rest;
    ConsonantReads(DEVANAGARI, text, 1, LatinOf(c));
    hide NextLetter;
    var (letter, len) := NextLetter(DEVANAGARI, text);
    ReadLetter(DEVANAGARI, text, word, false, letter, len);
  }

  lemma RowReads(c: char, i: nat)
    requires c in {KA, MA, LA, TA, SA, NA} && i < |DEVANAGARI_LETTERS|
    requires i == PlaceOf(c)
    ensures DEVANAGARI_LETTERS[i].latin == LatinOf(c)
  {
    RowOfKa();
    RowOfTa();
    RowOfNa();
    RowOfMa();
    RowOfLa();
    RowOfSa();
    hide DEVANAGARI_LETTERS;
  }

  function Bare(latin: string): Syllable {
    Syllable(latin, false, Inherent, "")
  }

  /** The word for lotus: three bare consonants, the middle schwa kept and the last dropped. */
  lemma Kamal()
    ensures Romanized(DEVANAGARI, [KA, MA, LA]) == "kamal"
  {
    var w1, w2 := [Bare("k")], [Bare("k"), Bare("m")];
    var w3 := [Bare("k"), Bare("m"), Bare("l")];
    LettersAreNoSigns(MA);
    LettersAreNoSigns(LA);
    hide DEVANAGARI;
    Takes(KA, [KA, MA, LA], []);
    Takes(MA, [MA, LA], w1);
    Takes(LA, [LA], w2);
    ReadEnd(DEVANAGARI, w3, false);
    KamalIsWritten();
    hide Lookup, Flush;
    assert [KA, MA, LA][1..] == [MA, LA] && [MA, LA][1..] == [LA] && [LA][1..] == "";
    assert [] + [Bare("k")] == w1 && w1 + [Bare("m")] == w2 && w2 + [Bare("l")] == w3;
    assert Romanized(DEVANAGARI, [KA, MA, LA]) == Rest(DEVANAGARI, [KA, MA, LA], [], false);
    hide Rest;
  }

  lemma KamalIsWritten()
    ensures Flush([Bare("k"), Bare("m"), Bare("l")]) == "kamal"
  {
    var w := [Bare("k"), Bare("m"), Bare("l")];
    BareWordAlternates(w, 0);
    BareWordAlternates(w, 1);
    BareWordAlternates(w, 2);
    hide Silent;
    assert Written(w, 1) == "ka";
    assert Written(w, 2) == "kama";
    assert Written(w, 3) == "kamal";
  }

  /** "From you": the schwa between a written vowel and a consonant with a vowel of its own is dropped. */
  lemma Tumse()
    ensures Romanized(DEVANAGARI, [TA, U, MA, SA, E]) == "tumse"
  {
    var t, m, s := Syllable("t", false, Sign("u"), ""), Bare("m"), Syllable("s", false, Sign("e"), "");
    var text := [TA, U, MA, SA, E];
    LettersAreNoSigns(SA);
    DevanagariSigns();
    hide DEVANAGARI;
    Takes(TA, text, []);
    Takes(MA, [MA, SA, E], [t]);
    Takes(SA, [SA, E], [t, m]);
    ReadEnd(DEVANAGARI, [t, m, s], false);
    TumseIsWritten();
    hide Lookup, Flush;
    assert text[2..] == [MA, SA, E] && [MA, SA, E][1..] == [SA, E] && [SA, E][2..] == "";
    assert [] + [t] == [t] && [t] + [m] == [t, m] && [t, m] + [s] == [t, m, s];
    assert Romanized(DEVANAGARI, text) == Rest(DEVANAGARI, text, [], false);
    hide Rest;
  }

  lemma TumseIsWritten()
    ensures Flush([Syllable("t", false, Sign("u"), ""), Bare("m"), Syllable("s", false, Sign("e"), "")]) == "tumse"
  {
    var w := [Syllable("t", false, Sign("u"), ""), Bare("m"), Syllable("s", false, Sign("e"), "")];
    assert !Silent(w, 2) && Silent(w, 1) && !Silent(w, 0);
    hide Silent;
    assert Written(w, 1) == "tu";
    assert Written(w, 2) == "tum";
  }

  lemma NamasteIsWritten()
    ensures Flush([Bare("n"), Bare("m"), Syllable("s", false, Dead, ""), Syllable("t", false, Sign("e"), "")])
            == "namaste"
  {
    var w := [Bare("n"), Bare("m"), Syllable("s", false, Dead, ""), Syllable("t", false, Sign("e"), "")];
    assert !Silent(w, 3) && !Silent(w, 2) && !Silent(w, 1) && !Silent(w, 0);
    hide Silent;
    assert Written(w, 1) == "na";
    assert Written(w, 2) == "nama";
    assert Written(w, 3) == "namas";
  }

  /** The greeting: a cluster with a virama has no vowel, so the schwa before it stays. */
  lemma Namaste()
    ensures Romanized(DEVANAGARI, [NA, MA, SA, VIRAMA, TA, E]) == "namaste"
  {
    var n, m, s, t := Bare("n"), Bare("m"), Syllable("s", false, Dead, ""), Syllable("t", false, Sign("e"), "");
    var text := [NA, MA, SA, VIRAMA, TA, E];
    LettersAreNoSigns(MA);
    LettersAreNoSigns(SA);
    DevanagariSigns();
    hide DEVANAGARI;
    Takes(NA, text, []);
    Takes(MA, [MA, SA, VIRAMA, TA, E], [n]);
    Takes(SA, [SA, VIRAMA, TA, E], [n, m]);
    Takes(TA, [TA, E], [n, m, s]);
    ReadEnd(DEVANAGARI, [n, m, s, t], false);
    NamasteIsWritten();
    hide Lookup, Flush;
    assert text[1..] == [MA, SA, VIRAMA, TA, E] && [MA, SA, VIRAMA, TA, E][1..] == [SA, VIRAMA, TA, E];
    assert [SA, VIRAMA, TA, E][2..] == [TA, E] && [TA, E][2..] == "";
    assert [] + [n] == [n] && [n] + [m] == [n, m] && [n, m] + [s] == [n, m, s] && [n, m, s] + [t] == [n, m, s, t];
    assert Romanized(DEVANAGARI, text) == Rest(DEVANAGARI, text, [], false);
    hide Rest;
  }

  // ---- tails, vowel letters and doubling -------------------------------------------------------

  /** A nasal or aspirate after a syllable is its tail, and a syllable with a tail never loses its vowel. */
  lemma TailStays(script: Script, word: seq<Syllable>, double: bool, c: char, latin: string)
    requires c in script.modifiers && word != [] && word[|word| - 1].tail == "" && latin != ""
    ensures var next, n := Attach(script, word, double, Other(c, latin)), |word| - 1;
            next == Some(word[..n] + [word[n].(tail := latin)]) && !Silent(next.value, n)
  {
  }

  /** A vowel letter is a syllable of its own; any other mark ends the word and is written as it reads. */
  lemma MarksOutsideSyllables(script: Script, word: seq<Syllable>, double: bool, c: char, latin: string)
    requires c !in script.modifiers || word == [] || word[|word| - 1].tail != ""
    ensures Attach(script, word, double, Other(c, latin))
            == if c in script.vowels then Some(word + [Syllable("", false, Sign(latin), "")]) else None
    ensures Attach(script, word, double, Voice(latin)) == Some(word + [Syllable("", false, Sign(latin), "")])
    ensures Attach(script, word, double, Raw(c)) == None && Plain(Raw(c)) == [c] && Plain(Other(c, latin)) == latin
  {
  }

  const PA := '\U{0A2A}'
  const AA := '\U{0A3E}'
  const PUNJABI_KA := '\U{0A15}'

  lemma RowOfPa()
    ensures |GURMUKHI_LETTERS| == 32 && OnlyRow(GURMUKHI_LETTERS, 22) && GURMUKHI_LETTERS[22] == Row(PA, "", "p")
  {
  }

  lemma RowOfPunjabiKa()
    ensures OnlyRow(GURMUKHI_LETTERS, 2) && GURMUKHI_LETTERS[2] == Row(PUNJABI_KA, "", "k")
  {
  }

  lemma PunjabiShape()
    ensures Splits(GURMUKHI_LETTERS + GURMUKHI_DOTTED, 32, {GURMUKHI_NUKTA})
  {
    GurmukhiLettersPlain();
    GurmukhiDottedLong();
    hide GURMUKHI_LETTERS, GURMUKHI_DOTTED;
  }

  lemma GurmukhiLettersPlain()
    ensures |GURMUKHI_LETTERS| == 32 && forall k :: 0 <= k < |GURMUKHI_LETTERS| ==> GURMUKHI_LETTERS[k].more == ""
  {
  }

  lemma GurmukhiDottedLong()
    ensures forall k :: 0 <= k < |GURMUKHI_DOTTED| ==>
              GURMUKHI_DOTTED[k].more != "" && GURMUKHI_DOTTED[k].more[0] in {GURMUKHI_NUKTA}
  {
  }

  lemma PunjabiSigns()
    ensures GURMUKHI.consonants == GURMUKHI_LETTERS + GURMUKHI_DOTTED
    ensures Lookup(AA, GURMUKHI.vowelSigns) == Some("aa") && Lookup(ADDAK, GURMUKHI.vowelSigns) == None
    ensures GURMUKHI.virama !in {AA, ADDAK}
  {
    var signs := GURMUKHI.vowelSigns;
    assert signs[0] == (AA, "aa") && forall j :: 0 <= j < |signs| ==> signs[j].0 != ADDAK;
    LookupAt(AA, signs, 0);
    LookupNone(ADDAK, signs);
  }

  lemma PunjabiLetters(text: string)
    requires text != "" && (|text| > 1 ==> text[1] != GURMUKHI_NUKTA)
    ensures text[0] == PA ==> Longest(text, GURMUKHI.consonants) == Some((1, "p"))
    ensures text[0] == PUNJABI_KA ==> Longest(text, GURMUKHI.consonants) == Some((1, "k"))
  {
    RowOfPa();
    RowOfPunjabiKa();
    PunjabiShape();
    PunjabiSigns();
    hide GURMUKHI, GURMUKHI_LETTERS, GURMUKHI_DOTTED, OnlyRow, Splits, Longest, Lookup;
    var rows := GURMUKHI_LETTERS + GURMUKHI_DOTTED;
    assert rows[..32] == GURMUKHI_LETTERS;
    LongRowsMiss(rows, 32, {GURMUKHI_NUKTA}, text);
    if text[0] == PA {
      PlainRow(rows, 32, {GURMUKHI_NUKTA}, 22, text);
    } else if text[0] == PUNJABI_KA {
      PlainRow(rows, 32, {GURMUKHI_NUKTA}, 2, text);
    }
  }

  lemma NoKeyIsAddak()
    ensures forall i :: 0 <= i < |GURMUKHI.consonants| ==> GURMUKHI.consonants[i].first != ADDAK
  {
  }

  /** An addak is a doubling, whatever comes after it. */
  lemma AddakDoubles(later: string)
    ensures NextLetter(GURMUKHI, [ADDAK] + later) == (Double, 1)
  {
    NoKeyIsAddak();
    GurmukhiSigns();
    GurmukhiCarriers();
    hide GURMUKHI;
    var table := GURMUKHI.consonants;
    forall i | 0 <= i < |table| ensures !(table[i].Key() <= [ADDAK] + later) {
      assert table[i].Key()[0] == table[i].first;
    }
    LongestIsLongest([ADDAK] + later, table);
  }

  lemma PakkaaBegins()
    ensures Rest(GURMUKHI, [PA, ADDAK, PUNJABI_KA, AA], [], false)
            == Rest(GURMUKHI, [PUNJABI_KA, AA], [Bare("p")], true)
  {
    var text, text1, text2 := [PA, ADDAK, PUNJABI_KA, AA], [ADDAK, PUNJABI_KA, AA], [PUNJABI_KA, AA];
    PunjabiSigns();
    PunjabiLetters(text);
    AddakDoubles(text2);
    hide GURMUKHI, Longest, Lookup, Flush, Rest;
    assert [ADDAK] + text2 == text1 && text[1..] == text1 && text1[1..] == text2;
    ConsonantReads(GURMUKHI, text, 1, "p");
    hide NextLetter;
    ReadLetter(GURMUKHI, text, [], false, Consonant("p", Inherent), 1);
    ReadLetter(GURMUKHI, text1, [Bare("p")], false, Double, 1);
    assert [] + [Bare("p")] == [Bare("p")];
  }

  /** "Firm": the addak doubles the consonant after it, and only that. */
  lemma Pakkaa()
    ensures Romanized(GURMUKHI, [PA, ADDAK, PUNJABI_KA, AA]) == "pakkaa"
  {
    var p, k := Bare("p"), Syllable("k", true, Sign("aa"), "");
    var text, text2 := [PA, ADDAK, PUNJABI_KA, AA], [PUNJABI_KA, AA];
    assert Romanized(GURMUKHI, text) == Rest(GURMUKHI, text, [], false);
    PakkaaBegins();
    PunjabiSigns();
    PunjabiLetters(text2);
    PakkaaIsWritten();
    hide GURMUKHI, Longest, Lookup, Flush, Rest, Romanized;
    assert text2[2..] == "";
    ConsonantReads(GURMUKHI, text2, 1, "k");
    hide NextLetter;
    ReadLetter(GURMUKHI, text2, [p], true, Consonant("k", Sign("aa")), 2);
    ReadEnd(GURMUKHI, [p, k], false);
    assert [p] + [k] == [p, k];
  }

  lemma PakkaaIsWritten()
    ensures Flush([Bare("p"), Syllable("k", true, Sign("aa"), "")]) == "pakkaa"
  {
    var w := [Bare("p"), Syllable("k", true, Sign("aa"), "")];
    assert !Silent(w, 1) && !Silent(w, 0);
    hide Silent;
    assert Written(w, 1) == "pa";
  }
}
