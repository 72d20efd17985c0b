/**
 The nginx configuration parser (internal/connectors/nginx/parse.go).

 `Parser` is the source's own machine: a cursor, a line counter and six flags updated
 one character at a time. It is proved equal to `Lex`, an automaton over five named
 modes, and `ParseBlock`, recursive descent over what `Lex` returns. What those two
 compute is fixed by a grammar in NginxGrammar.dfy.

 A character stands for one byte of the file.
 */
module NginxParse {
  import opened Results

  datatype Limits = Limits(blockDepth: nat, tokenBytes: nat)

  /** A directive after pruning. `block == []` stands for Go's nil and for an empty block alike. */
  datatype Directive = Directive(
    name: string, args: seq<string>, file: string, line: nat, isBlock: bool, block: seq<Directive>)

  const KEEP_ARGS: set<string> :=
    {"include", "server_name", "listen", "location", "proxy_pass", "set", "upstream", "server", "ssl"}

  const KEEP_CHILDREN: set<string> := {"http", "server", "location", "upstream"}

  datatype Fault =
    | UnexpectedClose
    | MissingClose
    | UnexpectedEnd
    | TooDeep
    | Unterminated
    | AfterQuotedString
    | UnexpectedChar(c: char)
    | TokenTooLong

  datatype ParseError = ParseError(line: nat, fault: Fault)

  // ---------------------------------------------------------------------------
  // Escapes

  predicate IsSpace(c: char) {
    c == ' ' || c == '\t' || c == '\r' || c == '\n'
  }

  /** What the second character of an escape pair stands for, if the pair is one nginx knows. */
  function EscapeOf(c: char): Option<char> {
    if c == '"' || c == '\'' || c == '\\' then Some(c)
    else if c == 't' then Some('\t')
    else if c == 'r' then Some('\r')
    else if c == 'n' then Some('\n')
    else None
  }

  /** The value of a raw word, read front to back. */
  function Unescape(raw: string): string {
    if |raw| == 0 then ""
    else if raw[0] == '\\' && |raw| > 1 && EscapeOf(raw[1]).Some? then
      [EscapeOf(raw[1]).value] + Unescape(raw[2..])
    else [raw[0]] + Unescape(raw[1..])
  }

  lemma {:induction false} NoEscapeIsIdentity(raw: string)
    requires '\\' !in raw
    ensures Unescape(raw) == raw
  {
    if |raw| > 0 {
      assert raw == [raw[0]] + raw[1..];
      NoEscapeIsIdentity(raw[1..]);
    }
  }

  method UnescapeLoop(raw: string) returns (out: string)
    ensures out == Unescape(raw)
  {
    if '\\' !in raw {
      NoEscapeIsIdentity(raw);
      return raw;
    }
    out := "";
    var i := 0;
    while i < |raw|
      invariant 0 <= i <= |raw|
      invariant out + Unescape(raw[i..]) == Unescape(raw)
    {
      ghost var here := raw[i..];
      ghost var before := out;
      var c := raw[i];
      if c == '\\' && i + 1 < |raw| {
        var pair := EscapeOf(raw[i + 1]);
        if pair.Some? {
          i := i + 1;
          c := pair.value;
        }
      }
      out := out + [c];
      i := i + 1;
      assert Unescape(here) == [c] + Unescape(raw[i..]) by {
        assert here[1..] == raw[|raw| - |here| + 1..];
        if |here| > 1 { assert here[2..] == raw[|raw| - |here| + 2..]; }
      }
      assert before + ([c] + Unescape(raw[i..])) == out + Unescape(raw[i..]);
    }
    assert raw[i..] == "";
  }

  // ---------------------------------------------------------------------------
  // The tokenizer as an automaton

  datatype Style = Bare | Single | Double

  /** Where the tokenizer stands; `raw` is the word so far as it is written. */
  datatype Mode =
    | Gap
    | Comment
    | Word(style: Style, raw: string, escaped: bool, dollar: bool, startLine: nat)
    | AfterWord

  datatype Words = Words(args: seq<string>, line: nat) {
    function Add(raw: string, startLine: nat): Words {
      Words(args + [Unescape(raw)], if args == [] then startLine else line)
    }
  }

  /** One directive's words and what ended them. */
  datatype Lexed =
    | Ended(words: Words, opens: bool)
    | Closed
    | Finished
    | Bad(error: ParseError)

  datatype Move = Go(mode: Mode, words: Words) | Stop(lexed: Lexed)

  function BeginWord(ch: char, line: nat): Mode {
    match ch
    case '"' => Word(Double, "", false, false, line)
    case '\'' => Word(Single, "", false, false, line)
    case '\\' => Word(Bare, [ch], true, false, line)
    case '$' => Word(Bare, [ch], false, true, line)
    case _ => Word(Bare, [ch], false, false, line)
  }

  function InGap(ch: char, line: nat, words: Words): Move {
    if IsSpace(ch) then Go(Gap, words)
    else if ch == ';' || ch == '{' then
      if words.args == [] then Stop(Bad(ParseError(line, UnexpectedChar(ch))))
      else Stop(Ended(words, ch == '{'))
    else if ch == '}' then
      if words.args == [] then Stop(Closed) else Stop(Bad(ParseError(line, UnexpectedClose)))
    else if ch == '#' then Go(Comment, words)
    else Go(BeginWord(ch, line), words)
  }

  function InWord(ch: char, mode: Mode, words: Words, lim: nat): Move
    requires mode.Word?
  {
    var longer := mode.(raw := mode.raw + [ch]);
    var done := words.Add(mode.raw, mode.startLine);
    if mode.escaped then Go(longer.(escaped := false), words)
    else if |mode.raw| > lim then Stop(Bad(ParseError(mode.startLine, TokenTooLong)))
    else if ch == '{' && mode.dollar then Go(longer, words)
    else if ch == '\\' then Go(longer.(escaped := true, dollar := false), words)
    else if ch == '$' then Go(longer.(dollar := true), words)
    else match mode.style
      case Double => if ch == '"' then Go(AfterWord, done) else Go(longer.(dollar := false), words)
      case Single => if ch == '\'' then Go(AfterWord, done) else Go(longer.(dollar := false), words)
      case Bare =>
        if ch == ';' || ch == '{' then Stop(Ended(done, ch == '{'))
        else if IsSpace(ch) then Go(Gap, done)
        else Go(longer.(dollar := false), words)
  }

  /** One character; `line` already counts it when it is a newline. */
  function Step(ch: char, line: nat, mode: Mode, words: Words, lim: nat): Move {
    match mode
    case Comment => if ch == '\n' then Go(Gap, words) else Go(Comment, words)
    case Gap => InGap(ch, line, words)
    case Word(_, _, _, _, _) => InWord(ch, mode, words, lim)
    case AfterWord =>
      if IsSpace(ch) then Go(Gap, words)
      else if ch == ';' || ch == '{' then Stop(Ended(words, ch == '{'))
      else if ch == ')' then Go(BeginWord(ch, line), words)
      else Stop(Bad(ParseError(line, AfterQuotedString)))
  }

  function AtEnd(line: nat, mode: Mode, words: Words): Lexed {
    if mode.Word? && !mode.style.Bare? then Bad(ParseError(mode.startLine, Unterminated))
    else if words.args != [] || mode.Word? || mode.AfterWord? then Bad(ParseError(line, UnexpectedEnd))
    else Finished
  }

  function Bump(line: nat, ch: char): nat {
    if ch == '\n' then line + 1 else line
  }

  /** Reads one directive's words off `text`: what was read, what is left, and the line there. */
  function Lex(text: string, line: nat, mode: Mode, words: Words, lim: nat): (r: (Lexed, string, nat))
    ensures |r.1| <= |text|
    ensures r.0.Ended? || r.0.Closed? ==> |r.1| < |text|
    ensures r.0.Ended? ==> r.0.words.args != [] || (mode.AfterWord? && words.args == [])
  {
    if |text| == 0 then (AtEnd(line, mode, words), "", line)
    else
      var l := Bump(line, text[0]);
      match Step(text[0], l, mode, words, lim)
      case Go(m, w) => Lex(text[1..], l, m, w, lim)
      case Stop(lexed) => (lexed, text[1..], l)
  }

  lemma LexUnfolds(text: string, line: nat, mode: Mode, words: Words, lim: nat)
    requires |text| > 0
    ensures
      var l := Bump(line, text[0]);
      match Step(text[0], l, mode, words, lim)
      case Go(m, w) => Lex(text, line, mode, words, lim) == Lex(text[1..], l, m, w, lim)
      case Stop(lexed) => Lex(text, line, mode, words, lim) == (lexed, text[1..], l)
  {
  }

  /** The line of the first word is only ever read once a word has been added. */
  lemma LexForgetsLine(text: string, line: nat, mode: Mode, a: Words, b: Words, lim: nat)
    requires a.args == b.args == [] && !mode.AfterWord?
    ensures Lex(text, line, mode, a, lim) == Lex(text, line, mode, b, lim)
  {
  }

  // ---------------------------------------------------------------------------
  // Blocks

  datatype Parsed = Parsed(ds: seq<Directive>, rest: string, line: nat)

  function Pruned(words: Words, file: string, opens: bool, children: seq<Directive>): Directive
    requires words.args != []
  {
    var name := words.args[0];
    Directive(name, if name in KEEP_ARGS then words.args[1..] else [], file, words.line, opens,
              if opens && name in KEEP_CHILDREN then children else [])
  }

  const NO_WORDS: Words := Words([], 0)

  /** One directive with everything in its braces, or None where the block or the file ends. */
  function ParseItem(text: string, line: nat, depth: nat, file: string, lim: Limits)
    : (r: Result<(Option<Directive>, string, nat), ParseError>)
    ensures r.Ok? ==> |r.value.1| <= |text|
    ensures r.Ok? && r.value.0.Some? ==> |r.value.1| < |text|
    decreases |text|, 0
  {
    var (lexed, rest, l) := Lex(text, line, Gap, NO_WORDS, lim.tokenBytes);
    match lexed
    case Bad(e) => Err(e)
    case Closed => if depth == 0 then Err(ParseError(l, UnexpectedClose)) else Ok((None, rest, l))
    case Finished => if depth > 0 then Err(ParseError(l, MissingClose)) else Ok((None, rest, l))
    case Ended(words, opens) =>
      if !opens then Ok((Some(Pruned(words, file, false, [])), rest, l))
      else if depth >= lim.blockDepth then Err(ParseError(l, TooDeep))
      else match ParseBlock(rest, l, depth + 1, file, lim)
        case Err(e) => Err(e)
        case Ok(p) => Ok((Some(Pruned(words, file, true, p.ds)), p.rest, p.line))
  }

  function ParseBlock(text: string, line: nat, depth: nat, file: string, lim: Limits)
    : (r: Result<Parsed, ParseError>)
    ensures r.Ok? ==> |r.value.rest| <= |text|
    decreases |text|, 1
  {
    match ParseItem(text, line, depth, file, lim)
    case Err(e) => Err(e)
    case Ok((None, rest, l)) => Ok(Parsed([], rest, l))
    case Ok((Some(d), rest, l)) => Then([d], ParseBlock(rest, l, depth, file, lim))
  }

  function Then(ds: seq<Directive>, r: Result<Parsed, ParseError>): Result<Parsed, ParseError> {
    match r
    case Err(e) => r
    case Ok(p) => Ok(p.(ds := ds + p.ds))
  }

  lemma ThenNothing(r: Result<Parsed, ParseError>)
    ensures Then([], r) == r
  {
    if r.Ok? { assert [] + r.value.ds == r.value.ds; }
  }

  lemma ThenTwice(a: seq<Directive>, b: seq<Directive>, r: Result<Parsed, ParseError>)
    ensures Then(a, Then(b, r)) == Then(a + b, r)
  {
    if r.Ok? { assert a + (b + r.value.ds) == a + b + r.value.ds; }
  }

  function Parse(src: string, file: string, lim: Limits): Result<seq<Directive>, ParseError> {
    match ParseBlock(src, 1, 0, file, lim)
    case Err(e) => Err(e)
    case Ok(p) => Ok(p.ds)
  }

  // ---------------------------------------------------------------------------
  // The source's parser

  datatype Tok = TokEnd | TokOpen | TokClose | TokEof

  /** The locals of one call to `next`: seven flags and where the word being read began. */
  datatype Flags = Flags(
    lastSpace: bool, needSpace: bool, comment: bool, escaped: bool, variable: bool, sq: bool, dq: bool,
    start: nat, startLine: nat)

  class Parser {
    const src: string
    const file: string
    const lim: Limits
    var pos: nat
    var line: nat
    var args: seq<string>
    var argLine: nat

    constructor (src: string, file: string, lim: Limits)
      ensures this.src == src && this.file == file && this.lim == lim
      ensures pos == 0 && line == 1
    {
      this.src, this.file, this.lim := src, file, lim;
      pos, line, args, argLine := 0, 1, [], 0;
    }

    /** The flags are consistent: at most one of them says what the next character is. */
    ghost predicate Consistent(f: Flags)
      reads this
    {
      && f.start <= pos <= |src|
      && (f.comment ==> f.lastSpace)
      && (f.escaped ==> !f.lastSpace && !f.needSpace && !f.variable)
      && (f.needSpace || f.lastSpace ==> !f.variable && !f.sq && !f.dq)
      && (f.needSpace ==> !f.lastSpace && args != [])
      && !(f.sq && f.dq)
    }

    /** The mode the flags encode. */
    ghost function ModeOf(f: Flags): Mode
      requires f.start <= pos <= |src|
      reads this
    {
      if f.comment then Comment
      else if f.needSpace then AfterWord
      else if f.lastSpace then Gap
      else Word(if f.dq then Double else if f.sq then Single else Bare,
                src[f.start..pos], f.escaped, f.variable, f.startLine)
    }

    /** The mode the flags encoded before the character at `pos - 1` was taken. */
    ghost function ModeBefore(f: Flags): Mode
      requires f.start < pos <= |src|
      reads this
    {
      if f.comment then Comment
      else if f.needSpace then AfterWord
      else if f.lastSpace then Gap
      else Word(if f.dq then Double else if f.sq then Single else Bare,
                src[f.start..pos - 1], f.escaped, f.variable, f.startLine)
    }

    /** What the automaton makes of the rest of the text. */
    ghost function Ahead(f: Flags): (Lexed, string, nat)
      requires f.start <= pos <= |src|
      reads this
    {
      Lex(src[pos..], line, ModeOf(f), Words(args, argLine), lim.tokenBytes)
    }

    /** The flags and the words agree with one move of the automaton. */
    ghost predicate Agrees(move: Move, f: Flags, stop: Option<Result<Tok, ParseError>>)
      reads this
    {
      match move
      case Go(m, w) => stop.None? && Consistent(f) && ModeOf(f) == m && Words(args, argLine) == w
      case Stop(lexed) => stop.Some? && Answers(lexed, stop.value)
    }

    ghost predicate Answers(lexed: Lexed, r: Result<Tok, ParseError>)
      reads this
    {
      match lexed
      case Bad(e) => r == Err(e)
      case Finished => r == Ok(TokEof)
      case Closed => r == Ok(TokClose)
      case Ended(words, opens) =>
        r == Ok(if opens then TokOpen else TokEnd) && args == words.args && argLine == words.line
    }

    /** The character after a quoted string, up to where the source falls through to a new word. */
    method AfterQuote(ch: char, f: Flags) returns (f': Flags, stop: Option<Result<Tok, ParseError>>, again: bool)
      requires Consistent(f) && f.needSpace
      ensures again ==> ch == ')' && f' == f.(lastSpace := true, needSpace := false)
      ensures !again ==> Agrees(Step(ch, line, AfterWord, Words(args, argLine), lim.tokenBytes), f', stop)
      ensures ch == ')' ==> again
    {
      f', stop, again := f, None, false;
      if IsSpace(ch) {
        f' := f.(lastSpace := true, needSpace := false);
      } else if ch == ';' {
        stop := Some(Ok(TokEnd));
      } else if ch == '{' {
        stop := Some(Ok(TokOpen));
      } else if ch == ')' {
        f', again := f.(lastSpace := true, needSpace := false), true;
      } else {
        stop := Some(Err(ParseError(line, AfterQuotedString)));
      }
    }

    /** A character between words. */
    method BetweenWords(ch: char, f: Flags) returns (f': Flags, stop: Option<Result<Tok, ParseError>>)
      requires Consistent(f) && f.lastSpace && !f.comment && 0 < pos && src[pos - 1] == ch
      ensures Agrees(InGap(ch, line, Words(args, argLine)), f', stop)
    {
      f', stop := f.(start := pos - 1, startLine := line), None;
      assert src[pos - 1..pos] == [ch];
      if IsSpace(ch) {
      } else if ch == ';' || ch == '{' {
        if |args| == 0 {
          stop := Some(Err(ParseError(line, UnexpectedChar(ch))));
        } else if ch == '{' {
          stop := Some(Ok(TokOpen));
        } else {
          stop := Some(Ok(TokEnd));
        }
      } else if ch == '}' {
        if |args| > 0 {
          stop := Some(Err(ParseError(line, UnexpectedClose)));
        } else {
          stop := Some(Ok(TokClose));
        }
      } else if ch == '#' {
        f' := f'.(comment := true);
      } else if ch == '\\' {
        f' := f'.(escaped := true, lastSpace := false);
      } else if ch == '"' {
        f' := f'.(start := f'.start + 1, dq := true, lastSpace := false);
      } else if ch == '\'' {
        f' := f'.(start := f'.start + 1, sq := true, lastSpace := false);
      } else if ch == '$' {
        f' := f'.(variable := true, lastSpace := false);
      } else {
        f' := f'.(lastSpace := false);
      }
    }

    /** A character inside a word, not itself escaped. */
    method InsideWord(ch: char, f: Flags) returns (f': Flags, stop: Option<Result<Tok, ParseError>>)
      requires f.start < pos && Consistent(f) && !f.lastSpace && !f.needSpace && !f.escaped && src[pos - 1] == ch
      modifies `args, `argLine
      ensures Agrees(old(InWord(ch,
                  Word(if f.dq then Double else if f.sq then Single else Bare,
                       src[f.start..pos - 1], false, f.variable, f.startLine),
                  Words(args, argLine), lim.tokenBytes)), f', stop)
    {
      f', stop := f, None;
      assert src[f.start..pos] == src[f.start..pos - 1] + [ch];
      if pos - 1 - f.start > lim.tokenBytes {
        stop := Some(Err(ParseError(f.startLine, TokenTooLong)));
        return;
      }
      if ch == '{' && f.variable {
        return;
      }
      f' := f'.(variable := false);
      if ch == '\\' {
        f' := f'.(escaped := true);
        return;
      }
      if ch == '$' {
        f' := f'.(variable := true);
        return;
      }
      var found := false;
      if f.dq {
        if ch == '"' {
          f', found := f'.(dq := false, needSpace := true), true;
        }
      } else if f.sq {
        if ch == '\'' {
          f', found := f'.(sq := false, needSpace := true), true;
        }
      } else if IsSpace(ch) || ch == ';' || ch == '{' {
        f', found := f'.(lastSpace := true), true;
      }
      if !found {
        return;
      }
      if |args| == 0 {
        argLine := f.startLine;
      }
      var word := UnescapeLoop(src[f.start..pos - 1]);
      args := args + [word];
      if ch == ';' {
        stop := Some(Ok(TokEnd));
      } else if ch == '{' {
        stop := Some(Ok(TokOpen));
      }
    }

    /** One character, already counted in `pos` and `line`. */
    method Advance(ch: char, f0: Flags) returns (f: Flags, stop: Option<Result<Tok, ParseError>>)
      requires 0 < pos <= |src| && src[pos - 1] == ch && f0.start < pos
      requires f0.start <= pos - 1 && Consistent(f0)
      modifies `args, `argLine
      ensures Agrees(old(Step(ch, line, ModeBefore(f0), Words(args, argLine), lim.tokenBytes)), f, stop)
    {
      f, stop := f0, None;
      assert src[f.start..pos] == src[f.start..pos - 1] + [ch];
      if ch == '\n' {
        f := f.(comment := false);
      }
      if f.comment {
        return;
      }
      if f.escaped {
        f := f.(escaped := false);
        return;
      }
      if f.needSpace {
        var again;
        f, stop, again := AfterQuote(ch, f);
        if !again {
          return;
        }
      }
      if f.lastSpace {
        f, stop := BetweenWords(ch, f);
      } else {
        f, stop := InsideWord(ch, f);
      }
    }

    /** Moves past one character. */
    method Take(f0: Flags) returns (f: Flags, stop: Option<Result<Tok, ParseError>>)
      requires pos < |src| && Consistent(f0)
      modifies `pos, `line, `args, `argLine
      ensures pos == old(pos) + 1
      ensures stop.None? ==> Consistent(f) && Ahead(f) == old(Ahead(f0))
      ensures stop.Some? ==>
        old(Ahead(f0)).1 == src[pos..] && old(Ahead(f0)).2 == line && Answers(old(Ahead(f0)).0, stop.value)
    {
      LexUnfolds(src[pos..], line, ModeOf(f0), Words(args, argLine), lim.tokenBytes);
      var ch := src[pos];
      assert src[pos..][1..] == src[pos + 1..];
      pos := pos + 1;
      if ch == '\n' {
        line := line + 1;
      }
      f, stop := Advance(ch, f0);
    }

    method AtEof(f: Flags) returns (r: Result<Tok, ParseError>)
      requires Consistent(f)
      ensures Answers(AtEnd(line, ModeOf(f), Words(args, argLine)), r)
    {
      if f.sq || f.dq {
        return Err(ParseError(f.startLine, Unterminated));
      }
      if |args| > 0 || !f.lastSpace {
        return Err(ParseError(line, UnexpectedEnd));
      }
      return Ok(TokEof);
    }

    /** Reads one directive's words into `args` and reports what ended it. */
    method Next() returns (r: Result<Tok, ParseError>)
      requires pos <= |src|
      modifies `pos, `line, `args, `argLine
      ensures pos <= |src|
      ensures
        var (lexed, rest, l) := old(Lex(src[pos..], line, Gap, Words([], argLine), lim.tokenBytes));
        src[pos..] == rest && line == l && Answers(lexed, r)
    {
      args := [];
      var f := Flags(true, false, false, false, false, false, false, 0, 0);
      ghost var whole := Lex(src[pos..], line, Gap, Words([], argLine), lim.tokenBytes);
      var stop: Option<Result<Tok, ParseError>> := None;
      while stop.None? && pos < |src|
        invariant pos <= |src|
        invariant stop.None? ==> Consistent(f) && Ahead(f) == whole
        invariant stop.Some? ==> whole.1 == src[pos..] && whole.2 == line && Answers(whole.0, stop.value)
        decreases |src| - pos
      {
        f, stop := Take(f);
      }
      if stop.None? {
        assert src[pos..] == "";
        var atEof := AtEof(f);
        stop := Some(atEof);
      }
      r := stop.value;
    }

    /** Reads one directive and the block it opens; None at the end of the enclosing block or file. */
    method Item(depth: nat) returns (r: Result<Option<Directive>, ParseError>)
      requires pos <= |src|
      modifies `pos, `line, `args, `argLine
      ensures pos <= |src|
      ensures
        match old(ParseItem(src[pos..], line, depth, file, lim))
        case Err(e) => r == Err(e)
        case Ok((d, rest, l)) => r == Ok(d) && src[pos..] == rest && line == l
      decreases |src| - pos, 0
    {
      LexForgetsLine(src[pos..], line, Gap, Words([], argLine), NO_WORDS, lim.tokenBytes);
      var next := Next();
      if next.Err? {
        return Err(next.error);
      }
      var tok := next.value;
      if tok == TokClose {
        return if depth == 0 then Err(ParseError(line, UnexpectedClose)) else Ok(None);
      }
      if tok == TokEof {
        return if depth > 0 then Err(ParseError(line, MissingClose)) else Ok(None);
      }
      var d := Directive(args[0], [], file, argLine, false, []);
      if d.name in KEEP_ARGS {
        d := d.(args := args[1..]);
      }
      if tok == TokOpen {
        if depth >= lim.blockDepth {
          return Err(ParseError(line, TooDeep));
        }
        assert |src[pos..]| < |old(src[pos..])|;
        var children := Block(depth + 1);
        if children.Err? {
          return Err(children.error);
        }
        d := d.(isBlock := true);
        if d.name in KEEP_CHILDREN {
          d := d.(block := children.value);
        }
      }
      return Ok(Some(d));
    }

    /** Reads directives up to the end of this block, or of the file at depth 0. */
    method Block(depth: nat) returns (r: Result<seq<Directive>, ParseError>)
      requires pos <= |src|
      modifies `pos, `line, `args, `argLine
      ensures pos <= |src|
      ensures
        match old(ParseBlock(src[pos..], line, depth, file, lim))
        case Err(e) => r == Err(e)
        case Ok(p) => r == Ok(p.ds) && src[pos..] == p.rest && line == p.line
      decreases |src| - pos, 1
    {
      var out: seq<Directive> := [];
      ghost var whole := ParseBlock(src[pos..], line, depth, file, lim);
      ThenNothing(whole);
      while true
        invariant pos <= |src| && pos >= old(pos)
        invariant Then(out, ParseBlock(src[pos..], line, depth, file, lim)) == whole
        decreases |src| - pos
      {
        ghost var text := src[pos..];
        var item := Item(depth);
        if item.Err? {
          return Err(item.error);
        }
        if item.value.None? {
          assert out + [] == out;
          return Ok(out);
        }
        assert |src[pos..]| < |text|;
        ThenTwice(out, [item.value.value], ParseBlock(src[pos..], line, depth, file, lim));
        out := out + [item.value.value];
      }
    }
  }

  method ParseFile(src: string, file: string, lim: Limits) returns (r: Result<seq<Directive>, ParseError>)
    ensures r == Parse(src, file, lim)
  {
    var p := new Parser(src, file, lim);
    assert src[0..] == src;
    r := p.Block(0);
  }
}
