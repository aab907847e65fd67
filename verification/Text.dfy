/** The string operations the parsers use, with the laws their proofs rest on. */
module Text {
  import opened Common

  /** Unicode White_Space. */
  predicate IsSpace(c: char) {
    var n := c as int;
    9 <= n <= 13 || n == 0x20 || n == 0x85 || n == 0xA0 || n == 0x1680 || 0x2000 <= n <= 0x200A
    || n == 0x2028 || n == 0x2029 || n == 0x202F || n == 0x205F || n == 0x3000
  }

  function TrimStart(s: string): string {
    if s != "" && IsSpace(s[0]) then TrimStart(s[1..]) else s
  }

  function TrimEnd(s: string): string {
    if s != "" && IsSpace(s[|s| - 1]) then TrimEnd(s[..|s| - 1]) else s
  }

  function Trim(s: string): string {
    TrimEnd(TrimStart(s))
  }

  predicate Trimmed(s: string) {
    s == "" || (!IsSpace(s[0]) && !IsSpace(s[|s| - 1]))
  }

  lemma TrimStartFacts(s: string)
    ensures TrimStart(s) == "" || !IsSpace(TrimStart(s)[0])
    ensures |TrimStart(s)| <= |s| && TrimStart(s) == s[|s| - |TrimStart(s)|..]
  {
  }

  lemma TrimEndFacts(s: string)
    ensures TrimEnd(s) == "" || !IsSpace(TrimEnd(s)[|TrimEnd(s)| - 1])
    ensures |TrimEnd(s)| <= |s| && TrimEnd(s) == s[..|TrimEnd(s)|]
  {
  }

  /** Trimming is the identity exactly on trimmed strings, and always gives one. */
  lemma TrimFacts(s: string)
    ensures Trimmed(Trim(s)) && (Trim(s) == s <==> Trimmed(s))
    ensures forall c :: c in Trim(s) ==> c in s
  {
    TrimStartFacts(s);
    TrimEndFacts(TrimStart(s));
  }

  /** A trimmed, nonempty prefix shields the front; what follows is trimmed at its end only. */
  lemma TrimAfter(head: string, tail: string)
    requires head != "" && Trimmed(head)
    ensures Trim(head + tail) == head + TrimEnd(tail)
  {
    if tail != "" && IsSpace(tail[|tail| - 1]) {
      TrimAfter(head, tail[..|tail| - 1]);
      assert (head + tail)[..|head + tail| - 1] == head + tail[..|tail| - 1];
    } else {
      assert tail == "" ==> head + tail == head;
    }
  }

  lemma TrimShortens(s: string)
    requires !Trimmed(s)
    ensures |Trim(s)| < |s|
  {
    TrimFacts(s);
    TrimStartFacts(s);
    TrimEndFacts(TrimStart(s));
  }

  /** The first position of a character. */
  function Find(s: string, c: char): (r: Option<nat>)
    ensures r.Some? ==> r.value < |s| && s[r.value] == c && c !in s[..r.value]
    ensures r.None? <==> c !in s
  {
    if s == "" then None
    else if s[0] == c then Some(0)
    else
      match Find(s[1..], c)
      case None =>
        assert s == [s[0]] + s[1..];
        None
      case Some(i) =>
        assert s[..i + 1] == [s[0]] + s[1..][..i];
        Some(i + 1)
  }

  lemma FindAfter(head: string, c: char, tail: string)
    requires c !in head
    ensures Find(head + [c] + tail, c) == Some(|head|)
  {
    if head == "" {
      assert head + [c] + tail == [c] + tail;
    } else {
      FindAfter(head[1..], c, tail);
      assert (head + [c] + tail)[1..] == head[1..] + [c] + tail;
      assert forall x :: x in head[1..] ==> x in head;
      assert head[0] in head;
    }
  }

  /** Splitting at the first separator gives back what was joined. */
  lemma Cut(head: string, c: char, tail: string)
    requires c !in head
    ensures var s := head + [c] + tail;
            Find(s, c) == Some(|head|) && s[..|head|] == head && s[|head| + 1..] == tail
  {
    FindAfter(head, c, tail);
  }

  // ---- decimal numbers -------------------------------------------------------------------------

  const U64_MAX := 0xFFFF_FFFF_FFFF_FFFF

  predicate IsDigit(c: char) {
    '0' <= c <= '9'
  }

  predicate AllDigits(s: string) {
    forall c :: c in s ==> IsDigit(c)
  }

  lemma DigitsLack(s: string, c: char)
    requires AllDigits(s) && !IsDigit(c)
    ensures c !in s
  {
  }

  function Value(s: string): nat
    requires AllDigits(s)
  {
    if s == "" then 0 else
      assert IsDigit(s[|s| - 1]);
      Value(s[..|s| - 1]) * 10 + (s[|s| - 1] as int - '0' as int)
  }

  /** `str::parse::<u64>`: an optional plus sign, at least one digit, no overflow. */
  function ParseU64(s: string): Option<nat> {
    var digits := if s != "" && s[0] == '+' then s[1..] else s;
    if digits != "" && AllDigits(digits) && Value(digits) <= U64_MAX then Some(Value(digits)) else None
  }

  function DigitOf(n: nat): char
    requires n < 10
  {
    '0' + n as char
  }

  function Print(n: nat): (s: string)
    ensures s != "" && AllDigits(s) && Value(s) == n
    ensures n < 10 ==> |s| == 1
    ensures n < 100 ==> |s| <= 2
    ensures n < 1000 ==> |s| <= 3
  {
    if n < 10 then [DigitOf(n)] else
      var front := Print(n / 10);
      assert (front + [DigitOf(n % 10)])[..|front|] == front;
      front + [DigitOf(n % 10)]
  }

  /** Zero-padded to a width. */
  function Pad(s: string, width: nat): (r: string)
    requires AllDigits(s)
    ensures AllDigits(r) && Value(r) == Value(s) && |r| == Max(|s|, width)
    decreases width - |s|
  {
    if |s| >= width then s else
      ZeroFirst(s);
      Pad("0" + s, width)
  }

  lemma ZeroFirst(s: string)
    requires AllDigits(s)
    ensures AllDigits("0" + s) && Value("0" + s) == Value(s)
  {
    if s != "" {
      ZeroFirst(s[..|s| - 1]);
      assert ("0" + s)[..|s|] == "0" + s[..|s| - 1];
    }
  }

  lemma DigitsAreTrimmed(s: string)
    requires s != "" && AllDigits(s)
    ensures Trim(s) == s && s[0] != '+'
  {
    TrimFacts(s);
    assert IsDigit(s[0]) && IsDigit(s[|s| - 1]);
  }
}
