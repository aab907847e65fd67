/**
 The reading tables of Hangul in terms of sounds: what becomes of a final consonant before each initial,
 derived from what the consonants are, and words from the romanizer's own tests.
 */
module KoreanSounds {
  import opened Common
  import opened Korean

  // Initials by their places in `CHO`.
  const G := 0
  const N := 2
  const R := 5
  const M := 6
  const SILENT := 11
  const H := 18

  /** A final that is one consonant, as the initial it is when it links to the next syllable. */
  function Simple(jong: nat): Option<nat> {
    match jong
    case 1 => Some(0)
    case 2 => Some(1)
    case 7 => Some(3)
    case 8 => Some(5)
    case 17 => Some(7)
    case 19 => Some(9)
    case 20 => Some(10)
    case 22 => Some(12)
    case 23 => Some(14)
    case 24 => Some(15)
    case 25 => Some(16)
    case 26 => Some(17)
    case _ => None
  }

  /** A final that is two consonants: the sound of the first, and the second as an initial. */
  function Cluster(jong: nat): Option<(string, nat)> {
    match jong
    case 3 => Some(("k", 9))
    case 5 => Some(("n", 12))
    case 6 => Some(("n", 18))
    case 9 => Some(("l", 0))
    case 10 => Some(("l", 6))
    case 11 => Some(("l", 7))
    case 12 => Some(("l", 9))
    case 13 => Some(("l", 16))
    case 14 => Some(("l", 17))
    case 15 => Some(("l", 18))
    case 18 => Some(("p", 9))
    case _ => None
  }

  /** Linking: before a silent initial a final moves over, a cluster leaves its first half behind. */
  lemma FinalsLink(jong: nat)
    requires jong < 28
    ensures Simple(jong).Some? ==> Merged(jong, SILENT) == Some(CHO[Simple(jong).value])
    ensures Cluster(jong).Some? ==> Merged(jong, SILENT) == Some(Cluster(jong).value.0 + CHO[Cluster(jong).value.1])
    ensures jong == 27 ==> Merged(jong, SILENT) == Some("")
    ensures jong in {0, 4, 16, 21} ==> Merged(jong, SILENT) == None
  {
    assert "k" + CHO[9] == "ks" && "n" + CHO[12] == "nj" && "n" + CHO[18] == "nh" && "p" + CHO[9] == "ps";
    assert "l" + CHO[0] == "lg" && "l" + CHO[6] == "lm" && "l" + CHO[7] == "lb" && "l" + CHO[9] == "ls";
    assert "l" + CHO[16] == "lt" && "l" + CHO[17] == "lp" && "l" + CHO[18] == "lh";
    hide CHO;
  }

  /** The nasal made where a stop is made. */
  function Nasal(stop: char): string {
    if stop == 'k' then "ng" else if stop == 'p' then "m" else "n"
  }

  /** The stop a final is said as. */
  function StopOf(jong: nat): char {
    if jong in {1, 2, 3, 9, 24} then 'k' else if jong in {11, 14, 17, 18, 26} then 'p' else 't'
  }

  predicate IsStop(jong: nat) {
    jong < 28 && JONG[jong] != "" && JONG[jong][0] in {'k', 't', 'p'}
  }

  /**
   Nasals: a stop before n or m becomes the nasal made in its place, and r after it is said n. One entry
   stands out: a final h before m is written mm.
   */
  lemma StopsNasalise(jong: nat)
    requires IsStop(jong)
    ensures Merged(jong, N) == Some(Nasal(JONG[jong][0]) + "n")
    ensures Merged(jong, R) == Some(Nasal(JONG[jong][0]) + "n")
    ensures Merged(jong, M) == Some(if jong == 27 then "mm" else Nasal(JONG[jong][0]) + "m")
  {
    assert "ng" + "n" == "ngn" && "m" + "n" == "mn" && "n" + "n" == "nn";
    assert "ng" + "m" == "ngm" && "m" + "m" == "mm" && "n" + "m" == "nm";
    assert JONG[jong][0] == StopOf(jong);
    hide JONG;
  }

  /** Liquids: n and r meet as ll; a cluster in l is a liquid too, and other nasals turn r to n. */
  lemma LiquidsMeet()
    ensures forall jong :: jong in {8, 15} ==> Merged(jong, N) == Some("ll") == Merged(jong, R)
    ensures Merged(4, R) == Some("ll") && Merged(15, M) == Some("lm")
    ensures Merged(5, N) == Some("nn") == Merged(5, R) && Merged(5, M) == Some("nm") && Merged(6, R) == Some("nn")
    ensures Merged(10, N) == Some("mn") == Merged(10, R) && Merged(10, M) == Some("mm") && Merged(16, R) == Some("mn")
    ensures Merged(4, N) == None == Merged(4, M) && Merged(6, N) == None == Merged(6, M)
    ensures Merged(8, M) == None && Merged(16, N) == None == Merged(16, M)
  {
  }

  /** An initial said with breath. */
  function Breathed(cho: nat): string {
    if cho in {0, 1, 15} then "kh" else if cho in {3, 10, 16} then "th" else if cho in {7, 17} then "ph"
    else if cho in {12, 14} then "ch" else if cho == 9 then "sh" else if cho == 6 then "mh" else "h"
  }

  /** Breath: before h a final or the second half of a cluster is said with breath; ks and h stand out. */
  lemma FinalsBreathe(jong: nat)
    requires jong < 28 && jong !in {3, 27}
    ensures Simple(jong).Some? && jong != 8 ==> Merged(jong, H) == Some(Breathed(Simple(jong).value))
    ensures Cluster(jong).Some? && jong != 6 ==>
              Merged(jong, H) == Some(Cluster(jong).value.0 + Breathed(Cluster(jong).value.1))
    ensures jong in {0, 4, 6, 8, 16, 21} ==> Merged(jong, H) == None
  {
    assert "n" + "ch" == "nch" && "p" + "sh" == "psh" && "l" + "kh" == "lkh" && "l" + "mh" == "lmh";
    assert "l" + "ph" == "lph" && "l" + "sh" == "lsh" && "l" + "th" == "lth" && "l" + "h" == "lh";
  }

  /** The two entries that stand out, and h before g. */
  lemma BreathExceptions()
    ensures Merged(3, H) == Some("kch") && Merged(27, H) == Some("t") && Merged(27, G) == Some("k")
  {
  }

  /** Before any other initial, and with no final or ng, nothing merges. */
  lemma OthersDoNotMeet(jong: nat, cho: nat)
    requires jong < 28 && cho < 19 && (cho !in {N, R, M, SILENT, H} || jong in {0, 21})
    ensures Merged(jong, cho) == None || (jong == 27 && cho == G)
  {
  }

  /** A final alone is one of seven sounds, tense k apart. */
  lemma SevenFinals(jong: nat)
    requires 0 < jong < 28
    ensures JONG[jong] in {"k", "kk", "n", "t", "l", "m", "p", "ng"}
  {
  }

  // ---- documented words ------------------------------------------------------------------------

  lemma Reads(prev: Option<char>, c: char, rest: string)
    ensures ReadAfter(prev, [c] + rest) == Piece(prev, c, Head(rest)) + ReadAfter(Some(c), rest)
  {
    assert ([c] + rest)[1..] == rest;
  }

  lemma ReadLast(prev: Option<char>, c: char)
    ensures ReadAfter(prev, [c]) == Piece(prev, c, None)
  {
    Reads(prev, c, "");
    assert [c] + "" == [c] && ReadAfter(Some(c), "") == "";
  }

  /** A syllable said after `prev` and before `next`, by its sounds; a merged final has taken the initial. */
  lemma Says(prev: Option<char>, c: char, next: Option<char>, j: Jamo, initial: string, vowel: string, final: string)
    requires IsHangul(c) && Decompose(c) == j && CHO[j.cho] == initial && JUNG[j.jung] == vowel
    requires Final(j.jong, next) == final
    ensures Piece(prev, c, next)
            == if Meeting(JongOf(prev), Some(c)).Some? then vowel + final else initial + (vowel + final)
  {
    hide Merged, Meeting, Decompose, CHO, JUNG, JONG;
    assert "" + (vowel + final) == vowel + final;
  }

  lemma Two(a: char, b: char, first: string, second: string)
    requires Piece(None, a, Some(b)) == first && Piece(Some(a), b, None) == second
    ensures Romanized([a, b]) == first + second
  {
    hide Piece;
    Reads(None, a, [b]);
    ReadLast(Some(a), b);
    assert [a] + [b] == [a, b];
  }

  const HAN := '\U{D55C}'
  const GUK := '\U{AD6D}'
  const NAE := '\U{B0B4}'
  const EO := '\U{C5B4}'
  const SIN := '\U{C2E0}'
  const RA := '\U{B77C}'
  const JOH := '\U{C88B}'
  const A := '\U{C544}'

  lemma Syllables()
    ensures IsHangul(HAN) && Decompose(HAN) == Jamo(18, 0, 4) && IsHangul(GUK) && Decompose(GUK) == Jamo(0, 13, 1)
    ensures IsHangul(NAE) && Decompose(NAE) == Jamo(2, 1, 0) && IsHangul(EO) && Decompose(EO) == Jamo(11, 4, 0)
    ensures IsHangul(SIN) && Decompose(SIN) == Jamo(9, 20, 4) && IsHangul(RA) && Decompose(RA) == Jamo(5, 0, 0)
    ensures IsHangul(JOH) && Decompose(JOH) == Jamo(12, 8, 27) && IsHangul(A) && Decompose(A) == Jamo(11, 0, 0)
  {
  }

  /** "Domestic": a stop turns nasal, and its nasal is written once. */
  lemma Gungnae()
    ensures Romanized([GUK, NAE]) == "gungnae"
  {
    Syllables();
    hide Decompose;
    Says(None, GUK, Some(NAE), Jamo(0, 13, 1), "g", "u", "ngn");
    Says(Some(GUK), NAE, None, Jamo(2, 1, 0), "n", "ae", "");
    assert Meeting(JongOf(None), Some(GUK)).None? && Meeting(JongOf(Some(GUK)), Some(NAE)).Some?;
    hide *;
    Two(GUK, NAE, "g" + ("u" + "ngn"), "ae" + "");
    assert "g" + ("u" + "ngn") + ("ae" + "") == "gungnae";
  }

  /** "Silla": n before r is said l. */
  lemma Silla()
    ensures Romanized([SIN, RA]) == "silla"
  {
    Syllables();
    hide Decompose;
    Says(None, SIN, Some(RA), Jamo(9, 20, 4), "s", "i", "ll");
    Says(Some(SIN), RA, None, Jamo(5, 0, 0), "r", "a", "");
    assert Meeting(JongOf(None), Some(SIN)).None? && Meeting(JongOf(Some(SIN)), Some(RA)).Some?;
    hide *;
    Two(SIN, RA, "s" + ("i" + "ll"), "a" + "");
    assert "s" + ("i" + "ll") + ("a" + "") == "silla";
  }

  /** "Good": h is not said before a vowel. */
  lemma Joa()
    ensures Romanized([JOH, A]) == "joa"
  {
    Syllables();
    hide Decompose;
    Says(None, JOH, Some(A), Jamo(12, 8, 27), "j", "o", "");
    Says(Some(JOH), A, None, Jamo(11, 0, 0), "", "a", "");
    assert Meeting(JongOf(None), Some(JOH)).None? && Meeting(JongOf(Some(JOH)), Some(A)).Some?;
    hide *;
    Two(JOH, A, "j" + ("o" + ""), "a" + "");
    assert "j" + ("o" + "") + ("a" + "") == "joa";
  }

  lemma Three(a: char, b: char, c: char, first: string, second: string, third: string)
    requires Piece(None, a, Some(b)) == first && Piece(Some(a), b, Some(c)) == second
    requires Piece(Some(b), c, None) == third
    ensures Romanized([a, b, c]) == first + (second + third)
  {
    hide Piece;
    assert [a] + [b, c] == [a, b, c] && [b] + [c] == [b, c] && Head([b, c]) == Some(b) && Head([c]) == Some(c);
    Reads(None, a, [b, c]);
    Reads(Some(a), b, [c]);
    ReadLast(Some(b), c);
  }

  lemma HangugeoPieces()
    ensures Piece(None, HAN, Some(GUK)) == "h" + ("a" + "n") && Piece(Some(HAN), GUK, Some(EO)) == "g" + ("u" + "g")
    ensures Piece(Some(GUK), EO, None) == "eo" + ""
  {
    Syllables();
    hide Decompose;
    assert Meeting(JongOf(None), Some(HAN)).None? && Meeting(JongOf(Some(HAN)), Some(GUK)).None?;
    assert Meeting(JongOf(Some(GUK)), Some(EO)).Some?;
    Says(None, HAN, Some(GUK), Jamo(18, 0, 4), "h", "a", "n");
    Says(Some(HAN), GUK, Some(EO), Jamo(0, 13, 1), "g", "u", "g");
    Says(Some(GUK), EO, None, Jamo(11, 4, 0), "", "eo", "");
    hide *;
  }

  /** "Korean": a final links to a silent initial, and one that meets nothing stays. */
  lemma Hangugeo()
    ensures Romanized([HAN, GUK, EO]) == "hangugeo"
  {
    HangugeoPieces();
    hide *;
    Three(HAN, GUK, EO, "h" + ("a" + "n"), "g" + ("u" + "g"), "eo" + "");
    assert "h" + ("a" + "n") + ("g" + ("u" + "g") + ("eo" + "")) == "hangugeo";
  }
}
