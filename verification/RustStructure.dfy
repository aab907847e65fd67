/**
 The Rust delimiter checker (scripts/check-rust-structure.py): a scanner over code, comments, strings
 and character literals, and a stack of open delimiters.

 The text of one file is a sequence of characters. Line numbers are kept only as the messages use them.
 */
module RustStructure {
  import opened Common

  datatype Mode = Code | LineComment | BlockComment(depth: nat) | Str | Chr | Raw(hashes: nat)

  datatype Error =
    | Unmatched(line: nat, close: char)
    | Unclosed(last: seq<(char, nat)>)
    | Unterminated(mode: Mode)

  predicate IsOpen(c: char) {
    c in "{(["
  }

  predicate IsClose(c: char) {
    c in "})]"
  }

  function CloseOf(open: char): char {
    if open == '{' then '}' else if open == '(' then ')' else ']'
  }

  // ---- lexing ----------------------------------------------------------------------------------

  function LeadingHashes(t: string): (n: nat)
    ensures n <= |t|
    ensures n < |t| ==> t[n] != '#'
  {
    if t == "" || t[0] != '#' then 0 else 1 + LeadingHashes(t[1..])
  }

  predicate At(t: string, i: nat, c: char) {
    i < |t| && t[i] == c
  }

  /** Whether a quote starts a character literal rather than a lifetime. */
  predicate StartsChar(t: string) {
    At(t, 1, '\\') || (1 < |t| && At(t, 2, '\''))
  }

  /** The mode after the token a text begins with, the token's length, and the delimiter it is, if any. */
  function Token(t: string, mode: Mode): (r: (Mode, nat, Option<char>))
    requires t != ""
    ensures r.1 > 0
  {
    var c := t[0];
    match mode
    case LineComment => (if c == '\n' then Code else LineComment, 1, None)
    case BlockComment(depth) =>
      if c == '/' && At(t, 1, '*') then (BlockComment(depth + 1), 2, None)
      else if c == '*' && At(t, 1, '/') then (if depth <= 1 then Code else BlockComment(depth - 1), 2, None)
      else (mode, 1, None)
    case Str => if c == '\\' then (mode, 2, None) else (if c == '"' then Code else mode, 1, None)
    case Chr => if c == '\\' then (mode, 2, None) else (if c == '\'' then Code else mode, 1, None)
    case Raw(hashes) =>
      if c == '"' && LeadingHashes(t[1..]) >= hashes then (Code, 1 + hashes, None) else (mode, 1, None)
    case Code =>
      if c == '/' && At(t, 1, '/') then (LineComment, 2, None)
      else if c == '/' && At(t, 1, '*') then (BlockComment(1), 2, None)
      else if c == 'r' then
        var h := LeadingHashes(t[1..]);
        if At(t, 1 + h, '"') then (Raw(h), 2 + h, None) else (Code, 1, None)
      else if c == '"' then (Str, 1, None)
      else if c == '\'' then (if StartsChar(t) then Chr else Code, 1, None)
      else (Code, 1, if IsOpen(c) || IsClose(c) then Some(c) else None)
  }

  function Rest(t: string, n: nat): string {
    if n <= |t| then t[n..] else ""
  }

  function Emit(c: Option<char>): string {
    if c.Some? then [c.value] else ""
  }

  /** The delimiters met in code, in order. */
  function Word(t: string, mode: Mode): string
    decreases |t|
  {
    if t == "" then "" else Emit(Token(t, mode).2) + Word(Rest(t, Token(t, mode).1), Token(t, mode).0)
  }

  function EndMode(t: string, mode: Mode): Mode
    decreases |t|
  {
    if t == "" then mode else EndMode(Rest(t, Token(t, mode).1), Token(t, mode).0)
  }

  predicate LeftOpen(mode: Mode) {
    mode.Str? || mode.Raw? || mode.BlockComment?
  }

  // ---- nesting ---------------------------------------------------------------------------------

  /** A well-nested word as a tree: nothing, or a bracketed word followed by another. */
  datatype Nesting = Nothing | Group(open: char, inside: Nesting, after: Nesting)
  {
    predicate Valid() {
      match this
      case Nothing => true
      case Group(open, inside, after) => IsOpen(open) && inside.Valid() && after.Valid()
    }

    function Flat(): string {
      match this
      case Nothing => ""
      case Group(open, inside, after) => [open] + (inside.Flat() + ([CloseOf(open)] + after.Flat()))
    }
  }

  ghost predicate WellNested(word: string) {
    exists n: Nesting :: n.Valid() && n.Flat() == word
  }

  /** The stack of open delimiters after a word, or nothing once a closer does not match. */
  function Stack(word: string, stack: string): Option<string> {
    if word == "" then Some(stack)
    else if IsOpen(word[0]) then Stack(word[1..], stack + [word[0]])
    else if stack != "" && CloseOf(stack[|stack| - 1]) == word[0] then Stack(word[1..], stack[..|stack| - 1])
    else None
  }

  lemma {:induction false} NestingKeepsStack(n: Nesting, rest: string, stack: string)
    requires n.Valid()
    ensures Stack(n.Flat() + rest, stack) == Stack(rest, stack)
    decreases n
  {
    match n
    case Nothing => assert "" + rest == rest;
    case Group(open, inside, after) =>
      var tail := [CloseOf(open)] + (after.Flat() + rest);
      assert n.Flat() + rest == [open] + (inside.Flat() + tail);
      assert ([open] + (inside.Flat() + tail))[1..] == inside.Flat() + tail;
      NestingKeepsStack(inside, tail, stack + [open]);
      assert tail[1..] == after.Flat() + rest && (stack + [open])[..|stack + [open]| - 1] == stack;
      NestingKeepsStack(after, rest, stack);
  }

  lemma GroupSpells(open: char, inside: Nesting, after: Nesting, tail: string, rest1: string, rest2: string)
    requires tail == inside.Flat() + rest1 && rest1 != "" && rest1[0] == CloseOf(open)
    requires rest1[1..] == after.Flat() + rest2
    ensures [open] + tail == Group(open, inside, after).Flat() + rest2
  {
    var close, i, f := [CloseOf(open)], inside.Flat(), after.Flat();
    assert rest1 == close + (f + rest2);
    assert [open] + (i + (close + (f + rest2))) == ([open] + (i + (close + f))) + rest2;
  }

  /** A word that empties its stack is a nesting, then the closer of the top of the stack, and so on. */
  lemma {:induction false} StackGivesNesting(word: string, stack: string) returns (n: Nesting, rest: string)
    requires Stack(word, stack) == Some("") && forall c :: c in stack ==> IsOpen(c)
    ensures n.Valid() && word == n.Flat() + rest
    ensures if stack == "" then rest == ""
            else rest != "" && rest[0] == CloseOf(stack[|stack| - 1])
                 && Stack(rest[1..], stack[..|stack| - 1]) == Some("")
    decreases |word|
  {
    if word == "" {
      n, rest := Nothing, "";
    } else if IsOpen(word[0]) {
      var open := word[0];
      var pushed := stack + [open];
      var inside, rest1 := StackGivesNesting(word[1..], pushed);
      assert pushed[..|pushed| - 1] == stack;
      var after, rest2 := StackGivesNesting(rest1[1..], stack);
      n, rest := Group(open, inside, after), rest2;
      GroupSpells(open, inside, after, word[1..], rest1, rest2);
      assert word == [open] + word[1..];
    } else {
      n, rest := Nothing, word;
      assert "" + word == word;
    }
  }

  /** The stack discipline accepts exactly the well-nested words. */
  lemma StackIffWellNested(word: string)
    ensures Stack(word, "") == Some("") <==> WellNested(word)
  {
    if Stack(word, "") == Some("") {
      var n, rest := StackGivesNesting(word, "");
      assert n.Flat() + "" == n.Flat();
    }
    if WellNested(word) {
      var n: Nesting :| n.Valid() && n.Flat() == word;
      NestingKeepsStack(n, "", "");
      assert n.Flat() + "" == word;
    }
  }

  // ---- files put together ----------------------------------------------------------------------

  lemma HashesStopAtBreak(a: string, b: string)
    ensures LeadingHashes(a + ['\n'] + b) == LeadingHashes(a)
  {
    if a != "" {
      assert (a + ['\n'] + b)[1..] == a[1..] + ['\n'] + b;
    }
  }

  /** A quote ends one text and another begins the next. */
  predicate QuotesMeet(a: string, b: string) {
    a != "" && a[|a| - 1] == '\'' && At(b, 0, '\'')
  }

  /** A line break after a text changes no token of it, but for an escape that swallows the break. */
  lemma TokenBeforeBreak(a: string, b: string, mode: Mode)
    requires a != "" && !QuotesMeet(a, b)
    ensures Token(a + ['\n'] + b, mode) == Token(a, mode)
  {
    var all := a + ['\n'] + b;
    assert all[1..] == a[1..] + ['\n'] + b && all[|a|] == '\n';
    HashesStopAtBreak(a[1..], b);
    assert forall i: nat, c :: i <= |a| && c != '\n' ==> (At(all, i, c) <==> At(a, i, c));
    assert |a| == 1 ==> all[2..] == b;
  }

  lemma TokenFits(a: string, mode: Mode)
    requires a != "" && EndMode(a, mode) in {Code, LineComment}
    ensures Token(a, mode).1 <= |a|
  {
    var (next, n, c) := Token(a, mode);
    assert n > |a| ==> next in {Str, Chr} && EndMode(a, mode) == EndMode("", next);
  }

  /**
   Files compose at a line break outside strings and block comments: the delimiters of the whole are
   those of the first part followed by those of the second read from scratch. Only a quote on either
   side of the break can make a character literal of it.
   */
  lemma {:induction false} BreaksCompose(a: string, b: string, mode: Mode)
    requires EndMode(a, mode) in {Code, LineComment} && !QuotesMeet(a, b)
    ensures Word(a + ['\n'] + b, mode) == Word(a, mode) + Word(b, Code)
    ensures EndMode(a + ['\n'] + b, mode) == EndMode(b, Code)
    decreases |a|, 1
  {
    hide Token;
    var all := a + ['\n'] + b;
    if a == "" {
      assert all == ['\n'] + b && Rest(all, 1) == b;
      BreakEndsLine(b, mode);
      assert "" + Word(b, Code) == Word(b, Code);
    } else {
      TokenBeforeBreak(a, b, mode);
      TokenFits(a, mode);
      ComposeStep(a, b, mode);
    }
  }

  lemma ComposeStep(a: string, b: string, mode: Mode)
    requires a != "" && Token(a, mode).1 <= |a| && Token(a + ['\n'] + b, mode) == Token(a, mode)
    requires EndMode(a, mode) in {Code, LineComment} && !QuotesMeet(a, b)
    ensures Word(a + ['\n'] + b, mode) == Word(a, mode) + Word(b, Code)
    ensures EndMode(a + ['\n'] + b, mode) == EndMode(b, Code)
    decreases |a|, 0
  {
    hide Token;
    var (next, n, c) := Token(a, mode);
    var rest := Rest(a, n);
    assert Rest(a + ['\n'] + b, n) == rest + ['\n'] + b;
    BreaksCompose(rest, b, next);
    assert Emit(c) + (Word(rest, next) + Word(b, Code)) == Emit(c) + Word(rest, next) + Word(b, Code);
  }

  /** Quotes that meet: the break becomes a character literal, and the brace after it is code. */
  lemma QuotesMakeLiteral()
    ensures EndMode("'", Code) == Code && Word("'", Code) + Word("'{'", Code) == ""
    ensures Word("'" + ['\n'] + "'{'", Code) == "{"
  {
    assert Rest("'", 1) == "" && Word("", Code) == "";
    var literal := "'{'";
    assert Token(literal, Code) == (Chr, 1, None) && Rest(literal, 1) == "{'";
    assert Token("{'", Chr) == (Chr, 1, None) && Rest("{'", 1) == "'" && Token("'", Chr) == (Code, 1, None);
    assert Word("'", Chr) == "" && Word("{'", Chr) == "";
    var all := "'" + ['\n'] + "'{'";
    assert all == "'\n'{'";
    assert Token(all, Code) == (Chr, 1, None) && Rest(all, 1) == "\n'{'";
    assert Token("\n'{'", Chr) == (Chr, 1, None) && Rest("\n'{'", 1) == "'{'";
    assert Token("'{'", Chr) == (Code, 1, None) && Rest("'{'", 1) == "{'";
    assert Token("{'", Code) == (Code, 1, Some('{')) && Rest("{'", 1) == "'";
    assert Word("'", Code) == "" && Word("{'", Code) == "{";
    assert Word("'{'", Chr) == "{" && Word("\n'{'", Chr) == "{";
  }

  lemma BreakEndsLine(b: string, mode: Mode)
    requires mode in {Code, LineComment}
    ensures Token(['\n'] + b, mode) == (Code, 1, None)
  {
    assert (['\n'] + b)[0] == '\n';
  }

  lemma {:induction false} CommentIsSilent(text: string)
    requires '\n' !in text
    ensures Word(text, LineComment) == "" && EndMode(text, LineComment) == LineComment
  {
    if text != "" {
      assert text[0] in text && Rest(text, 1) == text[1..] && forall c :: c in text[1..] ==> c in text;
      CommentIsSilent(text[1..]);
    }
  }

  /** A trailing line comment, whatever brackets it holds, never changes the verdict on a file. */
  lemma TrailingCommentIsInvisible(file: string, comment: string)
    requires EndMode(file, Code) in {Code, LineComment} && '\n' !in comment
    ensures var all := file + ['\n'] + ("//" + comment);
            Word(all, Code) == Word(file, Code) && !LeftOpen(EndMode(all, Code))
  {
    var line := "//" + comment;
    BreaksCompose(file, line, Code);
    CommentIsSilent(comment);
    assert Token(line, Code) == (LineComment, 2, None) && Rest(line, 2) == comment;
    assert Word(line, Code) == "" + Word(comment, LineComment);
  }

  // ---- the scan as it runs ---------------------------------------------------------------------

  function Opens(stack: seq<(char, nat)>): (s: string)
    ensures |s| == |stack|
  {
    seq(|stack|, i requires 0 <= i < |stack| => stack[i].0)
  }

  /** Where reading a word stops: at a closing delimiter that does not fit, or at its end, with what is open then. */
  datatype Halt = Mismatch(close: char, open: string) | AtEnd(open: string)

  function Halted(word: string, stack: string): Halt {
    if word == "" then AtEnd(stack)
    else if IsOpen(word[0]) then Halted(word[1..], stack + [word[0]])
    else if stack != "" && CloseOf(stack[|stack| - 1]) == word[0] then Halted(word[1..], stack[..|stack| - 1])
    else Mismatch(word[0], stack)
  }

  lemma {:induction false} HaltsLikeStack(word: string, stack: string)
    ensures Stack(word, stack) == match Halted(word, stack) case Mismatch(_, _) => None case AtEnd(open) => Some(open)
  {
    if word != "" {
      if IsOpen(word[0]) {
        HaltsLikeStack(word[1..], stack + [word[0]]);
      } else if stack != "" && CloseOf(stack[|stack| - 1]) == word[0] {
        HaltsLikeStack(word[1..], stack[..|stack| - 1]);
      }
    }
  }

  /** An error without its lines. */
  datatype Kind = BadClose(close: char) | StillOpen(last: string) | Unended(mode: Mode)

  function KindOf(e: Error): Kind {
    match e
    case Unmatched(_, close) => BadClose(close)
    case Unclosed(last) => StillOpen(Opens(last))
    case Unterminated(mode) => Unended(mode)
  }

  function Kinds(errs: seq<Error>): seq<Kind> {
    seq(|errs|, i requires 0 <= i < |errs| => KindOf(errs[i]))
  }

  /**
   What a file is charged with: a closing delimiter that does not fit, which ends the scan; the last four
   delimiters still open where the scan ends; and a literal or comment that the file ends inside of.
   */
  function Report(halt: Halt, end: Mode): seq<Kind> {
    (if halt.Mismatch? then [BadClose(halt.close)] else [])
    + (if halt.open != "" then [StillOpen(halt.open[Max(|halt.open| - 4, 0)..])] else [])
    + (if halt.AtEnd? && LeftOpen(end) then [Unended(end)] else [])
  }

  lemma CleanReport(halt: Halt, end: Mode)
    ensures Report(halt, end) == [] <==> halt == AtEnd("") && !LeftOpen(end)
  {
  }

  /**
   The errors reported, line numbers aside; and none exactly when the delimiters met in code are well
   nested and nothing is left open.
   */
  method CheckFile(s: string) returns (errs: seq<Error>)
    ensures Kinds(errs) == Report(Halted(Word(s, Code), ""), EndMode(s, Code))
    ensures errs == [] <==> WellNested(Word(s, Code)) && !LeftOpen(EndMode(s, Code))
  {
    hide Token, Word, EndMode, Stack, Halted, IsOpen, IsClose, Report;
    errs := [];
    var stack: seq<(char, nat)> := [];
    var i, line, mode := 0, 1, Code;
    ghost var word, done := Word(s, Code), EndMode(s, Code);
    StackIffWellNested(word);
    HaltsLikeStack(word, "");
    ghost var halt := Halted(word, "");
    CleanReport(halt, done);
    assert Rest(s, 0) == s && Opens([]) == "";
    while i < |s|
      invariant errs == [] && halt == Halted(Word(Rest(s, i), mode), Opens(stack))
      invariant done == EndMode(Rest(s, i), mode)
      decreases |s| - i
    {
      var (next, n, delimiter) := Token(s[i..], mode);
      ScanStep(s, i, mode);
      if s[i] == '\n' {
        line := line + 1;
      }
      if delimiter.Some? {
        var c := delimiter.value;
        TokenDelimits(s[i..], mode);
        DelimiterStep(c, Word(Rest(s, i + n), next), Opens(stack));
        if IsOpen(c) {
          stack := stack + [(c, line)];
          assert Opens(stack) == Opens(stack[..|stack| - 1]) + [c];
        } else if stack == [] || CloseOf(stack[|stack| - 1].0) != c {
          assert halt == Mismatch(c, Opens(stack)) && mode == Code by {
            CodeDelimits(s[i..], mode);
          }
          errs := errs + [Unmatched(line, c)];
          break;
        } else {
          assert Opens(stack[..|stack| - 1]) == Opens(stack)[..|stack| - 1];
          stack := stack[..|stack| - 1];
        }
      }
      mode := next;
      i := i + n;
    }
    ScanEnds(mode, Opens(stack));
    assert errs == [] ==> Rest(s, i) == "" && halt == AtEnd(Opens(stack)) && done == mode;
    assert halt.open == Opens(stack) && (errs != [] ==> errs == [Unmatched(line, halt.close)]);
    Reported(halt, done, stack, errs, mode);
    hide KindOf, Opens, Kinds, Rest, WellNested, LeftOpen;
    if stack != [] {
      errs := errs + [Unclosed(stack[Max(|stack| - 4, 0)..])];
    }
    if LeftOpen(mode) {
      errs := errs + [Unterminated(mode)];
    }
  }

  /** Delimiters are met in code alone. */
  lemma CodeDelimits(t: string, mode: Mode)
    requires t != "" && Token(t, mode).2.Some?
    ensures mode == Code
  {
    hide IsOpen, IsClose, LeadingHashes, At, StartsChar;
  }

  lemma TokenDelimits(t: string, mode: Mode)
    requires t != "" && Token(t, mode).2.Some?
    ensures IsOpen(Token(t, mode).2.value) || IsClose(Token(t, mode).2.value)
  {
    hide IsOpen, IsClose, LeadingHashes, At, StartsChar;
  }

  lemma ScanStep(s: string, i: nat, mode: Mode)
    requires i < |s|
    ensures var (next, n, delimiter) := Token(s[i..], mode);
            && Word(Rest(s, i), mode)
               == (if delimiter.Some? then [delimiter.value] + Word(Rest(s, i + n), next)
                   else Word(Rest(s, i + n), next))
            && EndMode(Rest(s, i), mode) == EndMode(Rest(s, i + n), next)
  {
    hide Token;
    var (next, n, delimiter) := Token(s[i..], mode);
    assert Rest(s[i..], n) == Rest(s, i + n);
    assert "" + Word(Rest(s, i + n), next) == Word(Rest(s, i + n), next);
  }

  lemma DelimiterStep(c: char, rest: string, stack: string)
    requires IsOpen(c) || IsClose(c)
    ensures Halted([c] + rest, stack) ==
            if IsOpen(c) then Halted(rest, stack + [c])
            else if stack != "" && CloseOf(stack[|stack| - 1]) == c then Halted(rest, stack[..|stack| - 1])
            else Mismatch(c, stack)
  {
    assert ([c] + rest)[1..] == rest;
  }

  lemma ScanEnds(mode: Mode, stack: string)
    ensures Word("", mode) == "" && EndMode("", mode) == mode && Halted("", stack) == AtEnd(stack)
  {
  }

  lemma Reported(halt: Halt, end: Mode, stack: seq<(char, nat)>, errs: seq<Error>, mode: Mode)
    requires halt.open == Opens(stack)
    requires if halt.Mismatch? then |errs| == 1 && KindOf(errs[0]) == BadClose(halt.close) && !LeftOpen(mode)
             else errs == [] && mode == end
    ensures var open := if stack != [] then [Unclosed(stack[Max(|stack| - 4, 0)..])] else [];
            var ended := if LeftOpen(mode) then [Unterminated(mode)] else [];
            Kinds(errs + open + ended) == Report(halt, end) && errs + open + [] == errs + open && errs + [] == errs
  {
    assert Opens(stack[Max(|stack| - 4, 0)..]) == halt.open[Max(|halt.open| - 4, 0)..];
  }
}
