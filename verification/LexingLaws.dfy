/**
 The delimiters "met in code", independently of the scanner: a file is written as a list of pieces, and
 scanning what is written gives the delimiters among the pieces of code and nothing from any literal or
 comment.
 */
module LexingLaws {
  import opened Common
  import opened RustStructure

  // ---- how a file is written -------------------------------------------------------------------

  /** One character of a string or character literal. */
  datatype Unit = Sign(c: char) | Escaped(c: char)

  /** The rest of a block comment: its end, a character, or a comment inside it. */
  datatype Inside = End | Note(c: char, rest: Inside) | Nested(inner: Inside, rest: Inside)

  datatype Piece =
    | Plain(c: char)
    | LineNote(body: string)
    | BlockNote(inside: Inside)
    | Text(units: seq<Unit>)
    | RawText(hashes: nat, body: string)
    | Character(units: seq<Unit>)

  function Units(units: seq<Unit>): string {
    if units == [] then ""
    else (match units[0] case Sign(c) => [c] case Escaped(c) => ['\\', c]) + Units(units[1..])
  }

  function Spelled(x: Inside): (s: string)
    ensures s != ""
  {
    match x
    case End => "*/"
    case Note(c, rest) => [c] + Spelled(rest)
    case Nested(inner, rest) => "/*" + (Spelled(inner) + Spelled(rest))
  }

  function Hashes(n: nat): (s: string)
    ensures |s| == n && forall c :: c in s ==> c == '#'
  {
    seq(n, _ => '#')
  }

  function Write(p: Piece, after: string): string {
    match p
    case Plain(c) => [c] + after
    case LineNote(body) => "//" + (body + (['\n'] + after))
    case BlockNote(inside) => "/*" + (Spelled(inside) + after)
    case Text(units) => ['"'] + (Units(units) + (['"'] + after))
    case RawText(hashes, body) => ['r'] + (Hashes(hashes) + (['"'] + (body + (['"'] + (Hashes(hashes) + after)))))
    case Character(units) => ['\''] + (Units(units) + (['\''] + after))
  }

  function WriteAll(pieces: seq<Piece>): string {
    if pieces == [] then "" else Write(pieces[0], WriteAll(pieces[1..]))
  }

  // ---- which pieces are well written -----------------------------------------------------------

  predicate Quotes(units: seq<Unit>, quote: char) {
    forall i :: 0 <= i < |units| && units[i].Sign? ==> units[i].c != quote && units[i].c != '\\'
  }

  /** No character and the one after it open or close a comment by accident. */
  predicate Calm(x: Inside) {
    match x
    case End => true
    case Note(c, rest) =>
      Calm(rest) && !(c == '/' && Spelled(rest)[0] == '*') && !(c == '*' && Spelled(rest)[0] == '/')
    case Nested(inner, rest) => Calm(inner) && Calm(rest)
  }

  /** No quote in the body is followed by enough hashes to end it. */
  ghost predicate KeepsOpen(body: string, hashes: nat) {
    forall i :: 0 <= i < |body| && body[i] == '"' ==> LeadingHashes(body[i + 1..] + ['"']) < hashes
  }

  /** A piece followed by `after` reads as itself: code does not run into a comment or literal. */
  ghost predicate Fits(p: Piece, after: string) {
    match p
    case Plain(c) =>
      && c != '"'
      && (c == '/' ==> !At(after, 0, '/') && !At(after, 0, '*'))
      && (c == 'r' ==> !At(after, LeadingHashes(after), '"'))
      && (c == '\'' ==> !At(after, 0, '\\') && !At(after, 1, '\''))
    case LineNote(body) => '\n' !in body
    case BlockNote(inside) => Calm(inside)
    case Text(units) => Quotes(units, '"')
    case RawText(hashes, body) => KeepsOpen(body, hashes)
    case Character(units) => Quotes(units, '\'') && units != [] && (units[0].Escaped? || |units| == 1)
  }

  ghost predicate AllFit(pieces: seq<Piece>) {
    pieces != [] ==> AllFit(pieces[1..]) && Fits(pieces[0], WriteAll(pieces[1..]))
  }

  /** The delimiters among the pieces of code. */
  function Delimiters(pieces: seq<Piece>): string {
    if pieces == [] then ""
    else (if pieces[0].Plain? && pieces[0].c in "{}()[]" then [pieces[0].c] else "") + Delimiters(pieces[1..])
  }

  // ---- scanning what is written ----------------------------------------------------------------

  /** Scanning `t` from `mode` emits nothing until it scans `rest` from `mode'`. */
  ghost predicate Skips(t: string, mode: Mode, rest: string, mode': Mode) {
    Word(t, mode) == Word(rest, mode') && EndMode(t, mode) == EndMode(rest, mode')
  }

  lemma OneToken(t: string, mode: Mode, n: nat, mode': Mode)
    requires t != "" && n <= |t| && Token(t, mode) == (mode', n, None)
    ensures Skips(t, mode, t[n..], mode')
  {
  }

  lemma Then(t: string, m: Mode, t': string, m': Mode, t'': string, m'': Mode)
    requires Skips(t, m, t', m') && Skips(t', m', t'', m'')
    ensures Skips(t, m, t'', m'')
  {
  }

  function ModeOf(quote: char): Mode {
    if quote == '"' then Str else Chr
  }

  lemma QuoteCloses(quote: char, rest: string)
    requires quote == '"' || quote == '\''
    ensures Skips([quote] + rest, ModeOf(quote), rest, Code)
  {
    assert ([quote] + rest)[1..] == rest;
    OneToken([quote] + rest, ModeOf(quote), 1, Code);
  }

  lemma UnitSkips(unit: Unit, quote: char, later: string)
    requires quote == '"' || quote == '\''
    requires unit.Sign? ==> unit.c != quote && unit.c != '\\'
    ensures Skips(Units([unit]) + later, ModeOf(quote), later, ModeOf(quote))
  {
    var t := Units([unit]) + later;
    assert Units([unit][1..]) == "";
    match unit
    case Sign(c) =>
      assert t == [c] + later && t[1..] == later;
      OneToken(t, ModeOf(quote), 1, ModeOf(quote));
    case Escaped(c) =>
      assert t == ['\\', c] + later && t[2..] == later;
      OneToken(t, ModeOf(quote), 2, ModeOf(quote));
  }

  lemma UnitsFirst(units: seq<Unit>)
    requires units != []
    ensures Units(units) == Units([units[0]]) + Units(units[1..])
  {
    assert [units[0]][1..] == [] && Units([]) == "";
  }

  /** A string or character literal is silent up to its closing quote; a backslash hides what follows it. */
  lemma {:induction false} LiteralIsSilent(units: seq<Unit>, quote: char, rest: string)
    requires (quote == '"' || quote == '\'') && Quotes(units, quote)
    ensures Skips(Units(units) + ([quote] + rest), ModeOf(quote), rest, Code)
  {
    if units == [] {
      QuoteCloses(quote, rest);
      hide Skips;
      assert Units(units) + ([quote] + rest) == [quote] + rest;
    } else {
      var first, others, close := Units([units[0]]), Units(units[1..]), [quote] + rest;
      UnitsFirst(units);
      LiteralIsSilent(units[1..], quote, rest);
      UnitSkips(units[0], quote, others + close);
      hide Skips, Units;
      Regroup(first, others, close);
      Then(first + (others + close), ModeOf(quote), others + close, ModeOf(quote), rest, Code);
    }
  }

  function Outside(depth: nat): Mode {
    if depth <= 1 then Code else BlockComment(depth - 1)
  }

  lemma EndCloses(depth: nat, rest: string)
    requires depth > 0
    ensures Skips("*/" + rest, BlockComment(depth), rest, Outside(depth))
  {
    var t := "*/" + rest;
    assert t[0] == '*' && t[1] == '/' && t[2..] == rest;
    OneToken(t, BlockComment(depth), 2, Outside(depth));
  }

  lemma NoteSkips(c: char, later: string, depth: nat)
    requires depth > 0 && later != "" && !(c == '/' && later[0] == '*') && !(c == '*' && later[0] == '/')
    ensures Skips([c] + later, BlockComment(depth), later, BlockComment(depth))
  {
    var t := [c] + later;
    assert t[1..] == later && t[1] == later[0];
    OneToken(t, BlockComment(depth), 1, BlockComment(depth));
  }

  lemma NestedOpens(later: string, depth: nat)
    ensures Skips("/*" + later, BlockComment(depth), later, BlockComment(depth + 1))
  {
    var t := "/*" + later;
    assert t[0] == '/' && t[1] == '*' && t[2..] == later;
    OneToken(t, BlockComment(depth), 2, BlockComment(depth + 1));
  }

  /** A block comment is silent to its own end, whatever is nested in it. */
  lemma {:induction false} CommentIsSilentToItsEnd(x: Inside, depth: nat, rest: string)
    requires depth > 0 && Calm(x)
    ensures Skips(Spelled(x) + rest, BlockComment(depth), rest, Outside(depth))
    decreases x
  {
    hide Skips;
    match x
    case End => EndCloses(depth, rest);
    case Note(c, later) =>
      var text := Spelled(later);
      CommentIsSilentToItsEnd(later, depth, rest);
      NoteSkips(c, text + rest, depth);
      Regroup([c], text, rest);
      hide *;
      Then([c] + (text + rest), BlockComment(depth), text + rest, BlockComment(depth), rest, Outside(depth));
    case Nested(inner, later) =>
      var text, more := Spelled(inner), Spelled(later) + rest;
      CommentIsSilentToItsEnd(inner, depth + 1, more);
      CommentIsSilentToItsEnd(later, depth, rest);
      NestedOpens(text + more, depth);
      Regroup(text, Spelled(later), rest);
      Regroup("/*", text + Spelled(later), rest);
      assert Outside(depth + 1) == BlockComment(depth);
      hide *;
      Then("/*" + (text + more), BlockComment(depth), text + more, BlockComment(depth + 1), more, BlockComment(depth));
      Then("/*" + (text + more), BlockComment(depth), more, BlockComment(depth), rest, Outside(depth));
  }

  lemma {:induction false} LineIsSilent(body: string, rest: string)
    requires '\n' !in body
    ensures Skips(body + (['\n'] + rest), LineComment, rest, Code)
  {
    var t := body + (['\n'] + rest);
    if body == "" {
      assert t == ['\n'] + rest && t[1..] == rest;
      OneToken(t, LineComment, 1, Code);
    } else {
      assert body[0] in body && forall c :: c in body[1..] ==> c in body;
      LineIsSilent(body[1..], rest);
      assert t[1..] == body[1..] + (['\n'] + rest);
      OneToken(t, LineComment, 1, LineComment);
    }
  }

  lemma {:induction false} HashesLead(n: nat, rest: string)
    requires rest == "" || rest[0] != '#'
    ensures LeadingHashes(Hashes(n) + rest) == n
  {
    if n == 0 {
      assert Hashes(0) + rest == rest;
    } else {
      HashesLead(n - 1, rest);
      assert (Hashes(n) + rest)[1..] == Hashes(n - 1) + rest;
    }
  }

  lemma {:induction false} HashesAtLeast(n: nat, rest: string)
    ensures LeadingHashes(Hashes(n) + rest) >= n
  {
    if n > 0 {
      HashesAtLeast(n - 1, rest);
      assert (Hashes(n) + rest)[1..] == Hashes(n - 1) + rest;
    }
  }

  lemma {:induction false} HashesStop(s: string, rest: string)
    ensures LeadingHashes(s + (['"'] + rest)) == LeadingHashes(s + ['"'])
  {
    if s == "" {
      assert s + (['"'] + rest) == ['"'] + rest && s + ['"'] == ['"'];
    } else {
      HashesStop(s[1..], rest);
      assert (s + (['"'] + rest))[1..] == s[1..] + (['"'] + rest) && (s + ['"'])[1..] == s[1..] + ['"'];
    }
  }

  lemma RawCloses(hashes: nat, rest: string)
    ensures Skips(['"'] + (Hashes(hashes) + rest), Raw(hashes), rest, Code)
  {
    var t := ['"'] + (Hashes(hashes) + rest);
    assert t[1..] == Hashes(hashes) + rest;
    HashesAtLeast(hashes, rest);
    assert t[1 + hashes..] == rest;
    OneToken(t, Raw(hashes), 1 + hashes, Code);
  }

  lemma RawGoesOn(c: char, body: string, hashes: nat, more: string)
    requires c == '"' ==> LeadingHashes(body + ['"']) < hashes
    ensures var later := body + (['"'] + more); Skips([c] + later, Raw(hashes), later, Raw(hashes))
  {
    var later := body + (['"'] + more);
    assert ([c] + later)[1..] == later;
    HashesStop(body, more);
    OneToken([c] + later, Raw(hashes), 1, Raw(hashes));
  }

  lemma KeepsOpenLater(body: string, hashes: nat)
    requires body != "" && KeepsOpen(body, hashes)
    ensures KeepsOpen(body[1..], hashes) && (body[0] == '"' ==> LeadingHashes(body[1..] + ['"']) < hashes)
    ensures body == [body[0]] + body[1..]
  {
    hide LeadingHashes;
    var later := body[1..];
    forall i | 0 <= i < |later| && later[i] == '"' ensures LeadingHashes(later[i + 1..] + ['"']) < hashes {
      assert body[i + 1] == '"' && later[i + 1..] == body[i + 1 + 1..];
    }
  }

  /** A raw string is silent up to a quote with all its hashes; one with fewer does not end it. */
  lemma {:induction false} RawIsSilent(body: string, hashes: nat, rest: string)
    requires KeepsOpen(body, hashes)
    ensures Skips(body + (['"'] + (Hashes(hashes) + rest)), Raw(hashes), rest, Code)
  {
    hide Skips, LeadingHashes, Hashes;
    var more := Hashes(hashes) + rest;
    if body == "" {
      RawCloses(hashes, rest);
      assert body + (['"'] + more) == ['"'] + more;
    } else {
      KeepsOpenLater(body, hashes);
      RawIsSilent(body[1..], hashes, rest);
      var c, body', close := body[0], body[1..], ['"'] + more;
      RawGoesOn(c, body', hashes, more);
      Regroup([c], body', close);
      hide *;
      Then([c] + (body' + close), Raw(hashes), body' + close, Raw(hashes), rest, Code);
    }
  }

  /** One piece: code emits itself if it is a delimiter, anything else emits nothing. */
  lemma PieceScans(p: Piece, after: string)
    requires Fits(p, after)
    ensures Word(Write(p, after), Code)
            == (if p.Plain? && p.c in "{}()[]" then [p.c] else "") + Word(after, Code)
    ensures EndMode(Write(p, after), Code) == EndMode(after, Code)
  {
    match p {
      case Plain(c) =>
        PlainScans(c, after);
      case LineNote(body) =>
        Opens2('/', '/', body + (['\n'] + after), LineComment);
        LineIsSilent(body, after);
      case BlockNote(inside) =>
        Opens2('/', '*', Spelled(inside) + after, BlockComment(1));
        CommentIsSilentToItsEnd(inside, 1, after);
      case Text(units) =>
        TextOpens(Units(units) + (['"'] + after));
        LiteralIsSilent(units, '"', after);
      case RawText(hashes, body) =>
        RawOpens(hashes, body + (['"'] + (Hashes(hashes) + after)));
        RawIsSilent(body, hashes, after);
      case Character(units) =>
        CharacterOpens(units, after);
        LiteralIsSilent(units, '\'', after);
    }
    hide Token, Word, EndMode, Units, Spelled, Hashes;
    assert p.Plain? || "" + Word(after, Code) == Word(after, Code);
  }

  lemma Opens2(a: char, b: char, later: string, mode: Mode)
    requires a == '/' && ((b == '/' && mode == LineComment) || (b == '*' && mode == BlockComment(1)))
    ensures Skips([a, b] + later, Code, later, mode)
  {
    var t := [a, b] + later;
    assert t[0] == a && t[1] == b && t[2..] == later;
    OneToken(t, Code, 2, mode);
  }

  lemma TextOpens(later: string)
    ensures Skips(['"'] + later, Code, later, Str)
  {
    assert (['"'] + later)[1..] == later;
    OneToken(['"'] + later, Code, 1, Str);
  }

  lemma PlainScans(c: char, after: string)
    requires Fits(Plain(c), after)
    ensures Word([c] + after, Code) == (if c in "{}()[]" then [c] else "") + Word(after, Code)
    ensures EndMode([c] + after, Code) == EndMode(after, Code)
  {
    var t := [c] + after;
    PlainMeets(c, after);
    PlainToken(t, after);
    hide Token, LeadingHashes, StartsChar;
    assert Rest(t, 1) == after;
  }

  lemma PlainMeets(c: char, after: string)
    ensures var t := [c] + after;
            && t[0] == c && t[1..] == after
            && (forall i: nat, x :: At(t, i + 1, x) <==> At(after, i, x))
            && (StartsChar(t) <==> At(after, 0, '\\') || At(after, 1, '\''))
  {
    var t := [c] + after;
    assert forall i: nat, x :: At(t, i + 1, x) <==> At(after, i, x);
    assert At(t, 0 + 1, '\\') == At(after, 0, '\\') && At(t, 1 + 1, '\'') == At(after, 1, '\'');
  }

  lemma PlainToken(t: string, after: string)
    requires t != "" && t[1..] == after && t[0] != '"'
    requires t[0] == '/' ==> !At(t, 1, '/') && !At(t, 1, '*')
    requires t[0] == 'r' ==> !At(t, 1 + LeadingHashes(after), '"')
    requires t[0] == '\'' ==> !StartsChar(t)
    ensures Token(t, Code) == (Code, 1, if t[0] in "{}()[]" then Some(t[0]) else None)
  {
  }

  lemma RawOpens(hashes: nat, later: string)
    ensures Skips(['r'] + (Hashes(hashes) + (['"'] + later)), Code, later, Raw(hashes))
  {
    var t := ['r'] + (Hashes(hashes) + (['"'] + later));
    assert t[1..] == Hashes(hashes) + (['"'] + later);
    HashesLead(hashes, ['"'] + later);
    assert t[2 + hashes..] == later;
    OneToken(t, Code, 2 + hashes, Raw(hashes));
  }

  lemma CharacterOpens(units: seq<Unit>, after: string)
    requires Quotes(units, '\'') && units != [] && (units[0].Escaped? || |units| == 1)
    ensures Skips(['\''] + (Units(units) + (['\''] + after)), Code, Units(units) + (['\''] + after), Chr)
  {
    var t := ['\''] + (Units(units) + (['\''] + after));
    if units[0].Sign? {
      assert Units(units[1..]) == "" && Units(units) == [units[0].c];
      assert t[2] == '\'';
    } else {
      assert Units(units)[0] == '\\' && t[1] == '\\';
    }
    assert t[1..] == Units(units) + (['\''] + after);
    OneToken(t, Code, 1, Chr);
  }

  /**
   The delimiters the scanner meets in a written file are those of its code, and the scan ends in code:
   strings, raw strings, character literals, lifetimes and comments of any depth contribute nothing.
   */
  lemma {:induction false} ScanReadsCode(pieces: seq<Piece>)
    requires AllFit(pieces)
    ensures Word(WriteAll(pieces), Code) == Delimiters(pieces) && EndMode(WriteAll(pieces), Code) == Code
  {
    if pieces != [] {
      ScanReadsCode(pieces[1..]);
      PieceScans(pieces[0], WriteAll(pieces[1..]));
    }
  }

  /** A written file passes the check exactly when the delimiters of its code are well nested. */
  method CheckWritten(pieces: seq<Piece>) returns (errs: seq<Error>)
    requires AllFit(pieces)
    ensures errs == [] <==> WellNested(Delimiters(pieces))
  {
    ScanReadsCode(pieces);
    errs := CheckFile(WriteAll(pieces));
  }

  // ---- what is reported ------------------------------------------------------------------------

  /** Each bracket is closed by its own kind only. */
  lemma BracketsPair(open: char, close: char)
    requires open in "{([" && close in "})]"
    ensures Stack([open, close], "") == Some("") <==> [open, close] in ["{}", "()", "[]"]
  {
    assert [open, close][1..] == [close] && [close][1..] == "";
    assert "" + [open] == [open] && [open][..0] == "";
    assert [open, close][0] == open && [open, close][1] == close;
    if open == '{' {
      assert [open, close] == "{}" <==> close == '}';
      assert [open, close] != "()" && [open, close] != "[]";
    } else if open == '(' {
      assert [open, close] == "()" <==> close == ')';
      assert [open, close] != "{}" && [open, close] != "[]";
    } else {
      assert [open, close] == "[]" <==> close == ']';
      assert [open, close] != "{}" && [open, close] != "()";
    }
  }

  lemma {:induction false} UnitsSkip(units: seq<Unit>, quote: char, later: string)
    requires (quote == '"' || quote == '\'') && Quotes(units, quote)
    ensures Skips(Units(units) + later, ModeOf(quote), later, ModeOf(quote))
  {
    if units == [] {
      assert Units(units) + later == later;
    } else {
      var first, others := Units([units[0]]), Units(units[1..]);
      UnitsFirst(units);
      UnitsSkip(units[1..], quote, later);
      UnitSkips(units[0], quote, others + later);
      hide Skips, Units;
      Regroup(first, others, later);
      Then(first + (others + later), ModeOf(quote), others + later, ModeOf(quote), later, ModeOf(quote));
    }
  }

  /** A string that is not closed, raw or not, or a comment that is not, leaves the file open; a lone quote does not. */
  lemma UnclosedIsOpen(units: seq<Unit>, body: string, hashes: nat)
    requires Quotes(units, '"') && '"' !in body
    ensures LeftOpen(EndMode(['"'] + Units(units), Code))
    ensures LeftOpen(EndMode(['r'] + (Hashes(hashes) + (['"'] + body)), Code))
    ensures LeftOpen(EndMode("/*", Code)) && !LeftOpen(EndMode("'", Code)) && !LeftOpen(EndMode("//", Code))
  {
    UnitsSkip(units, '"', "");
    assert Units(units) + "" == Units(units);
    TextOpens(Units(units));
    RawOpens(hashes, body);
    RawStaysOpen(body, hashes);
    NestedCloses();
  }

  lemma {:induction false} RawStaysOpen(body: string, hashes: nat)
    requires '"' !in body
    ensures EndMode(body, Raw(hashes)) == Raw(hashes)
  {
    if body != "" {
      assert body[0] in body && forall c :: c in body[1..] ==> c in body;
      RawStaysOpen(body[1..], hashes);
      OneToken(body, Raw(hashes), 1, Raw(hashes));
    }
  }

  lemma NestedCloses()
    ensures EndMode("/*", Code) == BlockComment(1) && EndMode("'", Code) == Code && EndMode("//", Code) == LineComment
  {
    assert "/*"[2..] == "" && "//"[2..] == "" && "'"[1..] == "";
    OneToken("/*", Code, 2, BlockComment(1));
    OneToken("//", Code, 2, LineComment);
    OneToken("'", Code, 1, Code);
  }
}
