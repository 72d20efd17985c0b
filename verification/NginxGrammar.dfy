/**
 What the parser of NginxParse.dfy accepts, written as a grammar and not as a machine.

 A configuration file is a forest of directives whose words may be bare, single quoted
 or double quoted, with white space and comments between them. `ParserMeetsGrammar` says the
 parser succeeds on exactly the texts of well-formed files and returns the pruned forest with the
 line of every directive's first word; `PrintedTreeParsesBack` is the printer round trip.
 */
module NginxGrammar {
  import opened Results
  import opened NginxParse

  // ---------------------------------------------------------------------------
  // Lines

  /** The line reached after `s`. */
  function Down(line: nat, s: string): nat
    decreases |s|
  {
    if |s| == 0 then line else Down(Bump(line, s[0]), s[1..])
  }

  lemma {:induction false} DownAppend(line: nat, a: string, b: string)
    ensures Down(line, a + b) == Down(Down(line, a), b)
    decreases |a|
  {
    if |a| == 0 {
      assert a + b == b;
    } else {
      assert (a + b)[1..] == a[1..] + b;
      DownAppend(Bump(line, a[0]), a[1..], b);
    }
  }

  lemma Flat(a: string, b: string, c: string)
    ensures a + (b + c) == a + b + c
  {
  }

  lemma Regroup(a: string, b: string, c: string, d: string)
    ensures a + b + (c + d) == a + (b + c) + d
    ensures a + (b + c) + d == a + (b + (c + d))
    ensures a + (b + (c + d)) == a + b + c + d
  {
  }

  // ---------------------------------------------------------------------------
  // Layout: white space and comments

  datatype Piece = Blank(c: char) | Note(text: string)

  function PieceText(p: Piece): string {
    match p
    case Blank(c) => [c]
    case Note(text) => "#" + text + "\n"
  }

  predicate PieceOk(p: Piece) {
    match p
    case Blank(c) => IsSpace(c)
    case Note(text) => '\n' !in text
  }

  function LayoutText(g: seq<Piece>): string {
    if |g| == 0 then "" else PieceText(g[0]) + LayoutText(g[1..])
  }

  predicate LayoutOk(g: seq<Piece>) {
    forall p <- g :: PieceOk(p)
  }

  lemma {:induction false} NoteRun(note: string, tail: string, line: nat, words: Words, lim: nat)
    requires '\n' !in note
    ensures Lex(note + tail, line, Comment, words, lim) == Lex(tail, line, Comment, words, lim)
    ensures Down(line, note) == line
  {
    if |note| == 0 {
      assert note + tail == tail;
    } else {
      assert (note + tail)[1..] == note[1..] + tail;
      NoteRun(note[1..], tail, line, words, lim);
    }
  }

  lemma PieceRun(p: Piece, tail: string, line: nat, words: Words, lim: nat)
    requires PieceOk(p)
    ensures Lex(PieceText(p) + tail, line, Gap, words, lim)
         == Lex(tail, Down(line, PieceText(p)), Gap, words, lim)
  {
    match p
    case Blank(c) =>
      assert ([c] + tail)[1..] == tail;
    case Note(text) =>
      var whole := PieceText(p) + tail;
      assert whole[1..] == text + ("\n" + tail);
      NoteRun(text, "\n" + tail, line, words, lim);
      assert ("\n" + tail)[1..] == tail;
      assert PieceText(p) == "#" + (text + "\n") && PieceText(p)[1..] == text + "\n";
      DownAppend(line, text, "\n");
  }

  lemma {:induction false} LayoutRun(g: seq<Piece>, tail: string, line: nat, words: Words, lim: nat)
    requires LayoutOk(g)
    ensures Lex(LayoutText(g) + tail, line, Gap, words, lim)
         == Lex(tail, Down(line, LayoutText(g)), Gap, words, lim)
  {
    if |g| == 0 {
      assert LayoutText(g) + tail == tail;
    } else {
      var p, rest := PieceText(g[0]), LayoutText(g[1..]);
      assert p + rest + tail == p + (rest + tail);
      PieceRun(g[0], rest + tail, line, words, lim);
      LayoutRun(g[1..], tail, Down(line, p), words, lim);
      DownAppend(line, p, rest);
    }
  }

  // ---------------------------------------------------------------------------
  // Words

  datatype WordTok = WordTok(layout: seq<Piece>, style: Style, raw: string)

  /** The inside of a quoted string: escape pairs, and no bare quote mark. */
  predicate RawQuoted(raw: string, q: char) {
    |raw| == 0 ||
    (if raw[0] == '\\' then |raw| > 1 && RawQuoted(raw[2..], q)
     else raw[0] != q && RawQuoted(raw[1..], q))
  }

  /** A bare word: escape pairs, no separator, and '{' only straight after '$' (or another such '{'). */
  predicate RawBare(raw: string, dollar: bool) {
    |raw| == 0 ||
    (if raw[0] == '{' then dollar && RawBare(raw[1..], true)
     else if raw[0] == '\\' then |raw| > 1 && RawBare(raw[2..], false)
     else !IsSpace(raw[0]) && raw[0] != ';' && RawBare(raw[1..], raw[0] == '$'))
  }

  /** Whether a '{' after this bare word would still belong to it. */
  function EndsDollar(raw: string, dollar: bool): bool {
    if |raw| == 0 then dollar
    else if raw[0] == '{' then EndsDollar(raw[1..], dollar)
    else if raw[0] == '\\' && |raw| > 1 then EndsDollar(raw[2..], false)
    else EndsDollar(raw[1..], raw[0] == '$')
  }

  function QuoteOf(style: Style): string {
    match style
    case Bare => ""
    case Single => "'"
    case Double => "\""
  }

  function Written(w: WordTok): string {
    QuoteOf(w.style) + w.raw + QuoteOf(w.style)
  }

  predicate BareStart(c: char) {
    c != '}' && c != '#' && c != '"' && c != '\''
  }

  predicate WordOk(w: WordTok, lim: nat) {
    && LayoutOk(w.layout)
    && |w.raw| <= lim
    && match w.style
       case Bare => |w.raw| > 0 && BareStart(w.raw[0]) && RawBare(w.raw, false)
       case Single => RawQuoted(w.raw, '\'')
       case Double => RawQuoted(w.raw, '"')
  }

  /** What may come straight after a word. */
  predicate FollowOk(w: WordTok, tail: string) {
    |tail| > 0 &&
    ( || IsSpace(tail[0])
      || tail[0] == ';'
      || (tail[0] == '{' && (w.style.Bare? ==> !EndsDollar(w.raw, false)))
      || (tail[0] == ')' && !w.style.Bare?) )
  }

  lemma {:induction false} QuotedRun(style: Style, pre: string, raw: string, tail: string, line: nat,
                                     dollar: bool, start: nat, words: Words, lim: nat)
    requires !style.Bare? && RawQuoted(raw, QuoteOf(style)[0]) && |pre| + |raw| <= lim
    ensures Lex(raw + (QuoteOf(style) + tail), line, Word(style, pre, false, dollar, start), words, lim)
         == Lex(tail, Down(line, raw), AfterWord, words.Add(pre + raw, start), lim)
    decreases |raw|
  {
    var text := raw + (QuoteOf(style) + tail);
    if |raw| == 0 {
      assert text[1..] == tail && pre + raw == pre;
    } else if raw[0] == '\\' {
      assert text[1..][0] == raw[1] && text[1..][1..] == raw[2..] + (QuoteOf(style) + tail);
      assert Down(line, raw) == Down(Bump(line, raw[1]), raw[2..]) by { assert raw[1..][1..] == raw[2..]; }
      assert pre + raw == pre + [raw[0]] + [raw[1]] + raw[2..];
      QuotedRun(style, pre + [raw[0]] + [raw[1]], raw[2..], tail, Bump(line, raw[1]), false, start, words, lim);
    } else {
      assert text[1..] == raw[1..] + (QuoteOf(style) + tail);
      assert pre + raw == pre + [raw[0]] + raw[1..];
      var d := raw[0] == '$' || (raw[0] == '{' && dollar);
      QuotedRun(style, pre + [raw[0]], raw[1..], tail, Bump(line, raw[0]), d, start, words, lim);
    }
  }

  lemma {:induction false} BareRun(pre: string, raw: string, tail: string, line: nat,
                                   dollar: bool, start: nat, words: Words, lim: nat)
    requires RawBare(raw, dollar) && |pre| + |raw| <= lim
    requires |tail| > 0 && (IsSpace(tail[0]) || tail[0] == ';' || (tail[0] == '{' && !EndsDollar(raw, dollar)))
    ensures Lex(raw + tail, line, Word(Bare, pre, false, dollar, start), words, lim)
         == Lex(tail, Down(line, raw), AfterWord, words.Add(pre + raw, start), lim)
    decreases |raw|
  {
    var text := raw + tail;
    if |raw| == 0 {
      assert text == tail && pre + raw == pre;
    } else if raw[0] == '\\' {
      assert text[1..][0] == raw[1] && text[1..][1..] == raw[2..] + tail;
      assert Down(line, raw) == Down(Bump(line, raw[1]), raw[2..]) by { assert raw[1..][1..] == raw[2..]; }
      assert pre + raw == pre + [raw[0]] + [raw[1]] + raw[2..];
      BareRun(pre + [raw[0]] + [raw[1]], raw[2..], tail, Bump(line, raw[1]), false, start, words, lim);
    } else {
      assert text[1..] == raw[1..] + tail;
      assert pre + raw == pre + [raw[0]] + raw[1..];
      BareRun(pre + [raw[0]], raw[1..], tail, Bump(line, raw[0]), raw[0] == '$' || raw[0] == '{', start, words, lim);
    }
  }

  /** A word that starts bare reads the same whether or not its first character was seen between words. */
  lemma BareBegins(text: string, line: nat, words: Words, lim: nat)
    requires |text| > 0 && BareStart(text[0]) && !IsSpace(text[0]) && text[0] != ';' && text[0] != '{'
    ensures Lex(text, line, Gap, words, lim) == Lex(text, line, Word(Bare, "", false, false, line), words, lim)
  {
    assert Bump(line, text[0]) == line;
    assert "" + [text[0]] == [text[0]];
  }

  lemma AfterWordIsGap(w: WordTok, tail: string, line: nat, words: Words, lim: nat)
    requires FollowOk(w, tail) && words.args != []
    ensures Lex(tail, line, AfterWord, words, lim) == Lex(tail, line, Gap, words, lim)
  {
  }

  lemma QuotedLines(w: WordTok, line: nat)
    requires !w.style.Bare?
    ensures Down(line, Written(w)) == Down(line, w.raw)
  {
    var q := QuoteOf(w.style);
    assert Written(w) == q + (w.raw + q);
    DownAppend(line, q, w.raw + q);
    DownAppend(line, w.raw, q);
  }

  lemma QuotedWordRun(w: WordTok, tail: string, line: nat, words: Words, lim: nat)
    requires WordOk(w, lim) && !w.style.Bare?
    ensures Lex(Written(w) + tail, line, Gap, words, lim)
         == Lex(tail, Down(line, Written(w)), AfterWord, words.Add(w.raw, line), lim)
  {
    var q := QuoteOf(w.style);
    assert "" + w.raw == w.raw;
    assert (Written(w) + tail)[1..] == w.raw + (q + tail);
    QuotedRun(w.style, "", w.raw, tail, line, false, line, words, lim);
    QuotedLines(w, line);
  }

  lemma BareWordRun(w: WordTok, tail: string, line: nat, words: Words, lim: nat)
    requires WordOk(w, lim) && FollowOk(w, tail) && w.style.Bare?
    ensures Lex(Written(w) + tail, line, Gap, words, lim)
         == Lex(tail, Down(line, Written(w)), AfterWord, words.Add(w.raw, line), lim)
  {
    assert "" + w.raw == w.raw && Written(w) == w.raw;
    BareBegins(w.raw + tail, line, words, lim);
    BareRun("", w.raw, tail, line, false, line, words, lim);
  }

  lemma WrittenRun(w: WordTok, tail: string, line: nat, words: Words, lim: nat)
    requires WordOk(w, lim) && FollowOk(w, tail)
    ensures Lex(Written(w) + tail, line, Gap, words, lim)
         == Lex(tail, Down(line, Written(w)), Gap, words.Add(w.raw, line), lim)
  {
    if w.style.Bare? {
      BareWordRun(w, tail, line, words, lim);
    } else {
      QuotedWordRun(w, tail, line, words, lim);
    }
    AfterWordIsGap(w, tail, Down(line, Written(w)), words.Add(w.raw, line), lim);
  }

  function WordText(w: WordTok): string {
    LayoutText(w.layout) + Written(w)
  }

  lemma WordRun(w: WordTok, tail: string, line: nat, words: Words, lim: nat)
    requires WordOk(w, lim) && FollowOk(w, tail)
    ensures Lex(WordText(w) + tail, line, Gap, words, lim)
         == Lex(tail, Down(line, WordText(w)), Gap, words.Add(w.raw, Down(line, LayoutText(w.layout))), lim)
  {
    var a, b := LayoutText(w.layout), Written(w);
    assert WordText(w) + tail == a + (b + tail);
    LayoutRun(w.layout, b + tail, line, words, lim);
    WrittenRun(w, tail, Down(line, a), words, lim);
    DownAppend(line, a, b);
  }

  function WordsText(ws: seq<WordTok>): string {
    if |ws| == 0 then "" else WordText(ws[0]) + WordsText(ws[1..])
  }

  predicate WordsOk(ws: seq<WordTok>, tail: string, lim: nat) {
    |ws| == 0 ||
    (WordOk(ws[0], lim) && FollowOk(ws[0], WordsText(ws[1..]) + tail) && WordsOk(ws[1..], tail, lim))
  }

  /** The words' values. */
  function Values(ws: seq<WordTok>): (vs: seq<string>)
    ensures |vs| == |ws|
    ensures forall i | 0 <= i < |ws| :: vs[i] == Unescape(ws[i].raw)
  {
    seq(|ws|, i requires 0 <= i < |ws| => Unescape(ws[i].raw))
  }

  function Taken(words: Words, ws: seq<WordTok>, line: nat): Words {
    if |ws| == 0 then words
    else Words(words.args + Values(ws),
               if words.args == [] then Down(line, LayoutText(ws[0].layout)) else words.line)
  }

  lemma TakenNext(ws: seq<WordTok>, line: nat, words: Words)
    requires |ws| > 0
    ensures
      var l := Down(line, LayoutText(ws[0].layout));
      Taken(words, ws, line) == Taken(words.Add(ws[0].raw, l), ws[1..], Down(line, WordText(ws[0])))
  {
    assert Values(ws) == [Unescape(ws[0].raw)] + Values(ws[1..]);
    assert words.args + Values(ws) == words.args + [Unescape(ws[0].raw)] + Values(ws[1..]);
  }

  lemma {:induction false} WordsRun(ws: seq<WordTok>, tail: string, line: nat, words: Words, lim: nat)
    requires WordsOk(ws, tail, lim)
    ensures Lex(WordsText(ws) + tail, line, Gap, words, lim)
         == Lex(tail, Down(line, WordsText(ws)), Gap, Taken(words, ws, line), lim)
  {
    if |ws| == 0 {
      assert WordsText(ws) + tail == tail;
    } else {
      var rest := WordsText(ws[1..]);
      var l := Down(line, LayoutText(ws[0].layout));
      assert WordsText(ws) + tail == WordText(ws[0]) + (rest + tail);
      WordRun(ws[0], rest + tail, line, words, lim);
      WordsRun(ws[1..], tail, Down(line, WordText(ws[0])), words.Add(ws[0].raw, l), lim);
      DownAppend(line, WordText(ws[0]), rest);
      TakenNext(ws, line, words);
    }
  }

  // ---------------------------------------------------------------------------
  // Directives and files

  datatype Node =
    | Simple(words: seq<WordTok>, layout: seq<Piece>)
    | Block(words: seq<WordTok>, layout: seq<Piece>, body: seq<Node>, close: seq<Piece>)

  function Mark(n: Node): string {
    if n.Simple? then ";" else "{"
  }

  function HeadText(n: Node): string {
    WordsText(n.words) + (LayoutText(n.layout) + Mark(n))
  }

  function NodeText(n: Node): string {
    match n
    case Simple(_, _) => HeadText(n)
    case Block(_, _, body, close) => HeadText(n) + (ForestText(body) + (LayoutText(close) + "}"))
  }

  function ForestText(ns: seq<Node>): string {
    if |ns| == 0 then "" else NodeText(ns[0]) + ForestText(ns[1..])
  }

  predicate HeadOk(n: Node, lim: nat) {
    |n.words| > 0 && LayoutOk(n.layout) && WordsOk(n.words, LayoutText(n.layout) + Mark(n), lim)
  }

  predicate NodeOk(n: Node, depth: nat, lim: Limits) {
    HeadOk(n, lim.tokenBytes) &&
    (n.Block? ==> depth < lim.blockDepth && ForestOk(n.body, depth + 1, lim) && LayoutOk(n.close))
  }

  predicate ForestOk(ns: seq<Node>, depth: nat, lim: Limits) {
    |ns| == 0 || (NodeOk(ns[0], depth, lim) && ForestOk(ns[1..], depth, lim))
  }

  /** The directive a node stands for: pruned, and placed on the line of its first word. */
  function PrunedNode(n: Node, line: nat, file: string): Directive
    requires |n.words| > 0
    decreases n, 1
  {
    match n
    case Simple(ws, _) => Pruned(Taken(NO_WORDS, ws, line), file, false, [])
    case Block(ws, _, body, _) =>
      Pruned(Taken(NO_WORDS, ws, line), file, true, PrunedForest(body, Down(line, HeadText(n)), file))
  }

  function PrunedForest(ns: seq<Node>, line: nat, file: string): seq<Directive>
    decreases ns, 0
  {
    if |ns| == 0 then []
    else if |ns[0].words| == 0 then PrunedForest(ns[1..], Down(line, NodeText(ns[0])), file)
    else [PrunedNode(ns[0], line, file)] + PrunedForest(ns[1..], Down(line, NodeText(ns[0])), file)
  }

  lemma {:induction false} WordsOkExtends(ws: seq<WordTok>, tail: string, more: string, lim: nat)
    requires WordsOk(ws, tail, lim) && |tail| > 0
    ensures WordsOk(ws, tail + more, lim)
  {
    if |ws| > 0 {
      assert (WordsText(ws[1..]) + (tail + more))[0] == (WordsText(ws[1..]) + tail)[0];
      WordsOkExtends(ws[1..], tail, more, lim);
    }
  }

  lemma HeadRun(n: Node, tail: string, line: nat, lim: nat)
    requires HeadOk(n, lim)
    ensures Lex(HeadText(n) + tail, line, Gap, NO_WORDS, lim)
         == (Ended(Taken(NO_WORDS, n.words, line), n.Block?), tail, Down(line, HeadText(n)))
  {
    var a, b, m := WordsText(n.words), LayoutText(n.layout), Mark(n);
    var words := Taken(NO_WORDS, n.words, line);
    assert HeadText(n) + tail == a + (b + m + tail);
    WordsOkExtends(n.words, b + m, tail, lim);
    WordsRun(n.words, b + m + tail, line, NO_WORDS, lim);
    assert b + m + tail == b + (m + tail);
    LayoutRun(n.layout, m + tail, Down(line, a), words, lim);
    assert (m + tail)[0] == m[0] && (m + tail)[1..] == tail;
    DownAppend(line, a, b + m);
    DownAppend(Down(line, a), b, m);
  }

  lemma CloseRun(close: seq<Piece>, tail: string, line: nat, depth: nat, file: string, lim: Limits)
    requires LayoutOk(close) && depth > 0
    ensures ParseBlock(LayoutText(close) + "}" + tail, line, depth, file, lim)
         == Ok(Parsed([], tail, Down(line, LayoutText(close) + "}")))
  {
    var g := LayoutText(close);
    assert g + "}" + tail == g + ("}" + tail);
    LayoutRun(close, "}" + tail, line, NO_WORDS, lim.tokenBytes);
    assert ("}" + tail)[1..] == tail;
    DownAppend(line, g, "}");
  }

  lemma {:induction false} NodeRun(n: Node, tail: string, line: nat, depth: nat, file: string, lim: Limits)
    requires NodeOk(n, depth, lim)
    ensures ParseItem(NodeText(n) + tail, line, depth, file, lim)
         == Ok((Some(PrunedNode(n, line, file)), tail, Down(line, NodeText(n))))
    decreases n, 1
  {
    match n
    case Simple(_, _) => HeadRun(n, tail, line, lim.tokenBytes);
    case Block(_, _, body, close) =>
      var h, f, c := HeadText(n), ForestText(body), LayoutText(close) + "}";
      assert NodeText(n) + tail == h + (f + (c + tail));
      HeadRun(n, f + (c + tail), line, lim.tokenBytes);
      var l := Down(line, h);
      ForestRun(body, c + tail, l, depth + 1, file, lim);
      CloseRun(close, tail, Down(l, f), depth + 1, file, lim);
      assert PrunedForest(body, l, file) + [] == PrunedForest(body, l, file);
      DownAppend(line, h, f + c);
      DownAppend(l, f, c);
  }

  /** The parser reads a well-formed forest off the front of any text. */
  lemma {:induction false} ForestRun(ns: seq<Node>, tail: string, line: nat, depth: nat, file: string, lim: Limits)
    requires ForestOk(ns, depth, lim)
    ensures ParseBlock(ForestText(ns) + tail, line, depth, file, lim)
         == Then(PrunedForest(ns, line, file), ParseBlock(tail, Down(line, ForestText(ns)), depth, file, lim))
    decreases ns, 0
  {
    if |ns| == 0 {
      assert ForestText(ns) + tail == tail;
      ThenNothing(ParseBlock(tail, line, depth, file, lim));
    } else {
      var a, b := NodeText(ns[0]), ForestText(ns[1..]);
      var l := Down(line, a);
      assert ForestText(ns) + tail == a + (b + tail);
      NodeRun(ns[0], b + tail, line, depth, file, lim);
      ForestRun(ns[1..], tail, l, depth, file, lim);
      DownAppend(line, a, b);
      ThenTwice([PrunedNode(ns[0], line, file)], PrunedForest(ns[1..], l, file),
                ParseBlock(tail, Down(l, b), depth, file, lim));
    }
  }

  /** A whole file; its last comment may lack the newline. */
  datatype File = File(nodes: seq<Node>, layout: seq<Piece>, note: Option<string>)

  function NoteText(note: Option<string>): string {
    if note.Some? then "#" + note.value else ""
  }

  function FileText(f: File): string {
    ForestText(f.nodes) + (LayoutText(f.layout) + NoteText(f.note))
  }

  predicate FileOk(f: File, lim: Limits) {
    ForestOk(f.nodes, 0, lim) && LayoutOk(f.layout) && (f.note.Some? ==> '\n' !in f.note.value)
  }

  lemma TailRun(layout: seq<Piece>, note: Option<string>, line: nat, words: Words, lim: nat)
    requires LayoutOk(layout) && (note.Some? ==> '\n' !in note.value) && words.args == []
    ensures Lex(LayoutText(layout) + NoteText(note), line, Gap, words, lim).0 == Finished
  {
    LayoutRun(layout, NoteText(note), line, words, lim);
    if note.Some? {
      var l := Down(line, LayoutText(layout));
      assert NoteText(note)[1..] == note.value + "";
      NoteRun(note.value, "", l, words, lim);
    }
  }

  lemma FileParses(f: File, name: string, lim: Limits)
    requires FileOk(f, lim)
    ensures Parse(FileText(f), name, lim) == Ok(PrunedForest(f.nodes, 1, name))
  {
    var tail := LayoutText(f.layout) + NoteText(f.note);
    ForestRun(f.nodes, tail, 1, 0, name, lim);
    TailRun(f.layout, f.note, Down(1, ForestText(f.nodes)), NO_WORDS, lim.tokenBytes);
    assert PrunedForest(f.nodes, 1, name) + [] == PrunedForest(f.nodes, 1, name);
  }

  // ---------------------------------------------------------------------------
  // The other direction: what the parser accepts was written by the grammar

  lemma {:induction false} CommentSplit(text: string) returns (note: string, rest: string, closed: bool)
    ensures '\n' !in note
    ensures text == note + (if closed then "\n" + rest else "")
  {
    if |text| == 0 {
      note, rest, closed := "", "", false;
    } else if text[0] == '\n' {
      note, rest, closed := "", text[1..], true;
    } else {
      note, rest, closed := CommentSplit(text[1..]);
      note := [text[0]] + note;
    }
  }

  /** One byte of a quoted word, or two where the first is a backslash. */
  lemma QuotedStep(style: Style, pre: string, text: string, line: nat, dollar: bool, start: nat, words: Words, lim: nat)
    requires !style.Bare?
    requires !Lex(text, line, Word(style, pre, false, dollar, start), words, lim).0.Bad?
    ensures |text| > 0
    ensures text[0] == QuoteOf(style)[0] ==> |pre| <= lim
    ensures text[0] == '\\' ==>
      |text| > 1 && !Lex(text[2..], Bump(line, text[1]), Word(style, pre + [text[0]] + [text[1]], false, false, start), words, lim).0.Bad?
    ensures text[0] != '\\' && text[0] != QuoteOf(style)[0] ==>
      var d := text[0] == '$' || (text[0] == '{' && dollar);
      !Lex(text[1..], Bump(line, text[0]), Word(style, pre + [text[0]], false, d, start), words, lim).0.Bad?
  {
    if text[0] == '\\' {
      assert text[1..][1..] == text[2..];
    }
  }

  lemma {:induction false} QuotedSplit(style: Style, pre: string, text: string, line: nat, dollar: bool,
                                       start: nat, words: Words, lim: nat) returns (raw: string, rest: string)
    requires !style.Bare?
    requires !Lex(text, line, Word(style, pre, false, dollar, start), words, lim).0.Bad?
    ensures text == raw + (QuoteOf(style) + rest)
    ensures RawQuoted(raw, QuoteOf(style)[0]) && |pre| + |raw| <= lim
    decreases |text|
  {
    hide Lex;
    QuotedStep(style, pre, text, line, dollar, start, words, lim);
    var c := text[0];
    if c == '\\' {
      raw, rest := QuotedSplit(style, pre + [c] + [text[1]], text[2..], Bump(line, text[1]), false, start, words, lim);
      raw := [c, text[1]] + raw;
      assert raw[2..] + (QuoteOf(style) + rest) == text[2..];
    } else if c == QuoteOf(style)[0] {
      raw, rest := "", text[1..];
    } else {
      var d := c == '$' || (c == '{' && dollar);
      raw, rest := QuotedSplit(style, pre + [c], text[1..], Bump(line, c), d, start, words, lim);
      raw := [c] + raw;
    }
  }

  /** One byte of a bare word, or two where the first is a backslash. */
  lemma BareStep(pre: string, text: string, line: nat, dollar: bool, start: nat, words: Words, lim: nat)
    requires !Lex(text, line, Word(Bare, pre, false, dollar, start), words, lim).0.Bad?
    ensures |text| > 0
    ensures IsSpace(text[0]) || text[0] == ';' || (text[0] == '{' && !dollar) ==> |pre| <= lim
    ensures text[0] == '\\' ==>
      |text| > 1 && !Lex(text[2..], Bump(line, text[1]), Word(Bare, pre + [text[0]] + [text[1]], false, false, start), words, lim).0.Bad?
    ensures text[0] != '\\' && !IsSpace(text[0]) && text[0] != ';' && !(text[0] == '{' && !dollar) ==>
      !Lex(text[1..], Bump(line, text[0]), Word(Bare, pre + [text[0]], false, text[0] == '$' || text[0] == '{', start), words, lim).0.Bad?
  {
    if text[0] == '\\' {
      assert text[1..][1..] == text[2..];
    }
  }

  lemma {:induction false} BareSplit(pre: string, text: string, line: nat, dollar: bool,
                                     start: nat, words: Words, lim: nat) returns (raw: string, rest: string)
    requires !Lex(text, line, Word(Bare, pre, false, dollar, start), words, lim).0.Bad?
    ensures text == raw + rest && |rest| > 0
    ensures RawBare(raw, dollar) && |pre| + |raw| <= lim
    ensures IsSpace(rest[0]) || rest[0] == ';' || (rest[0] == '{' && !EndsDollar(raw, dollar))
    decreases |text|
  {
    hide Lex;
    BareStep(pre, text, line, dollar, start, words, lim);
    var c := text[0];
    if c == '\\' {
      raw, rest := BareSplit(pre + [c] + [text[1]], text[2..], Bump(line, text[1]), false, start, words, lim);
      raw := [c, text[1]] + raw;
      assert raw[2..] + rest == text[2..];
    } else if IsSpace(c) || c == ';' || (c == '{' && !dollar) {
      raw, rest := "", text;
    } else {
      raw, rest := BareSplit(pre + [c], text[1..], Bump(line, c), c == '$' || c == '{', start, words, lim);
      raw := [c] + raw;
    }
  }

  lemma AfterWordFollows(w: WordTok, tail: string, line: nat, words: Words, lim: nat)
    requires !Lex(tail, line, AfterWord, words, lim).0.Bad? && !w.style.Bare?
    ensures FollowOk(w, tail)
  {
  }

  lemma WordSplit(text: string, line: nat, words: Words, lim: nat) returns (w: WordTok, rest: string)
    requires !Lex(text, line, Gap, words, lim).0.Bad?
    requires |text| > 0 && !IsSpace(text[0]) && text[0] !in {';', '{', '}', '#'}
    ensures w.layout == [] && text == Written(w) + rest
    ensures WordOk(w, lim) && FollowOk(w, rest) && |rest| < |text|
  {
    var raw;
    var c := text[0];
    if c == '"' || c == '\'' {
      var style := if c == '"' then Double else Single;
      raw, rest := QuotedSplit(style, "", text[1..], line, false, line, words, lim);
      w := WordTok([], style, raw);
      assert text == [c] + text[1..] && text == Written(w) + rest;
      QuotedRun(style, "", raw, rest, line, false, line, words, lim);
      AfterWordFollows(w, rest, Down(line, raw), words.Add("" + raw, line), lim);
    } else {
      BareBegins(text, line, words, lim);
      raw, rest := BareSplit("", text, line, false, line, words, lim);
      w := WordTok([], Bare, raw);
      assert Written(w) == raw;
      assert |raw| > 0 && raw[0] == c;
    }
  }

  lemma LayoutCons(p: Piece, g: seq<Piece>, rest: string)
    requires PieceOk(p) && LayoutOk(g)
    ensures LayoutOk([p] + g)
    ensures LayoutText([p] + g) + rest == PieceText(p) + (LayoutText(g) + rest)
  {
    assert ([p] + g)[1..] == g;
    assert PieceText(p) + LayoutText(g) + rest == PieceText(p) + (LayoutText(g) + rest);
  }

  lemma {:induction false} LayoutSplit(text: string) returns (g: seq<Piece>, rest: string)
    ensures LayoutOk(g) && text == LayoutText(g) + rest
    ensures |rest| > 0 ==> !IsSpace(rest[0]) && (rest[0] == '#' ==> '\n' !in rest)
    decreases |text|
  {
    g, rest := [], text;
    var p, after := Blank(' '), text;
    if |text| == 0 {
      return;
    } else if IsSpace(text[0]) {
      p, after := Blank(text[0]), text[1..];
    } else if text[0] == '#' {
      var note, closed;
      note, after, closed := CommentSplit(text[1..]);
      assert text == "#" + text[1..];
      if !closed {
        return;
      }
      p := Note(note);
      assert "#" + (note + ("\n" + after)) == "#" + note + "\n" + after;
    } else {
      return;
    }
    assert text == PieceText(p) + after;
    g, rest := LayoutSplit(after);
    LayoutCons(p, g, rest);
    g := [p] + g;
  }

  ghost predicate Decomposes(text: string, r: (Lexed, string, nat), words: Words, ws: seq<WordTok>,
                             g: seq<Piece>, note: Option<string>, lim: nat)
  {
    LayoutOk(g) &&
    match r.0
    case Bad(_) => false
    case Ended(_, opens) =>
      var mark := if opens then "{" else ";";
      text == WordsText(ws) + LayoutText(g) + (mark + r.1) && WordsOk(ws, LayoutText(g) + mark, lim)
      && (words.args == [] ==> ws != [])
    case Closed => text == LayoutText(g) + ("}" + r.1) && ws == [] && words.args == []
    case Finished =>
      text == LayoutText(g) + NoteText(note) && ws == [] && words.args == [] && r.1 == ""
      && (note.Some? ==> '\n' !in note.value)
  }

  /** Where the words have ended: at a mark, or at the end of the file. */
  lemma MarkSplit(g: seq<Piece>, rest: string, line: nat, words: Words, lim: nat) returns (note: Option<string>)
    requires !Lex(rest, line, Gap, words, lim).0.Bad? && LayoutOk(g)
    requires |rest| == 0 || rest[0] in {';', '{', '}'} || (rest[0] == '#' && '\n' !in rest)
    ensures Decomposes(LayoutText(g) + rest, Lex(rest, line, Gap, words, lim), words, [], g, note, lim)
  {
    note := None;
    if |rest| > 0 {
      assert rest == [rest[0]] + rest[1..];
      if rest[0] == '#' {
        note := Some(rest[1..]);
        assert rest[1..] == rest[1..] + "";
        NoteRun(rest[1..], "", line, words, lim);
      }
    }
  }

  lemma {:induction false} LineSplit(text: string, line: nat, words: Words, lim: nat)
    returns (ws: seq<WordTok>, g: seq<Piece>, note: Option<string>)
    requires !Lex(text, line, Gap, words, lim).0.Bad?
    ensures Decomposes(text, Lex(text, line, Gap, words, lim), words, ws, g, note, lim)
    decreases |text|
  {
    var rest;
    ws, note := [], None;
    g, rest := LayoutSplit(text);
    LayoutRun(g, rest, line, words, lim);
    var l := Down(line, LayoutText(g));
    if |rest| == 0 || rest[0] in {';', '{', '}', '#'} {
      note := MarkSplit(g, rest, l, words, lim);
    } else {
      var w, after := WordSplit(rest, l, words, lim);
      WrittenRun(w, after, l, words, lim);
      var gap := g;
      ws, g, note := LineSplit(after, Down(l, Written(w)), words.Add(w.raw, l), lim);
      WordJoins(w, gap, after, ws, g, Lex(text, line, Gap, words, lim), words.Add(w.raw, l), note, lim, words);
      ws := [w.(layout := gap)] + ws;
    }
  }

  lemma WordJoinsText(w: WordTok, gap: seq<Piece>, ws: seq<WordTok>, g: string, end: string)
    ensures LayoutText(gap) + (Written(w) + (WordsText(ws) + g + end))
         == WordsText([w.(layout := gap)] + ws) + g + end
  {
    var a, b, c := LayoutText(gap), Written(w), WordsText(ws);
    assert ([w.(layout := gap)] + ws)[1..] == ws;
    Regroup(a, b, c, g + end);
    Regroup(c, g, end, "");
    assert c + g + end == c + (g + end);
    Regroup(a, b, c, g);
    Regroup(a + b, c, g, end);
  }

  lemma WordJoins(w: WordTok, gap: seq<Piece>, after: string, ws: seq<WordTok>, g: seq<Piece>,
                  r: (Lexed, string, nat), words: Words, note: Option<string>, lim: nat, before: Words)
    requires WordOk(w, lim) && FollowOk(w, after) && LayoutOk(gap) && words.args != []
    requires Decomposes(after, r, words, ws, g, note, lim)
    ensures Decomposes(LayoutText(gap) + (Written(w) + after), r, before, [w.(layout := gap)] + ws, g, note, lim)
  {
    var all, mark := [w.(layout := gap)] + ws, if r.0.opens then "{" else ";";
    assert WordsOk(all, LayoutText(g) + mark, lim) by {
      assert all[1..] == ws;
      assert (WordsText(ws) + (LayoutText(g) + mark))[0] == after[0];
    }
    WordJoinsText(w, gap, ws, LayoutText(g), mark + r.1);
  }

  // The blocks.

  predicate EndsWith(text: string, g: seq<Piece>, note: Option<string>, depth: nat, rest: string) {
    LayoutOk(g) &&
    if depth > 0 then text == LayoutText(g) + ("}" + rest)
    else text == LayoutText(g) + NoteText(note) && (note.Some? ==> '\n' !in note.value)
  }

  lemma HeadSplit(text: string, line: nat, n: Node, note: Option<string>, lim: nat)
    requires Lex(text, line, Gap, NO_WORDS, lim).0.Ended?
    requires Lex(text, line, Gap, NO_WORDS, lim).0.opens == n.Block?
    requires Decomposes(text, Lex(text, line, Gap, NO_WORDS, lim), NO_WORDS, n.words, n.layout, note, lim)
    ensures HeadOk(n, lim) && text == HeadText(n) + Lex(text, line, Gap, NO_WORDS, lim).1
  {
    var a, b, rest := WordsText(n.words), LayoutText(n.layout), Lex(text, line, Gap, NO_WORDS, lim).1;
    assert a + b + (Mark(n) + rest) == a + (b + Mark(n)) + rest;
  }

  lemma BlockText(n: Node, rest: string)
    requires n.Block?
    ensures NodeText(n) + rest == HeadText(n) + (ForestText(n.body) + (LayoutText(n.close) + ("}" + rest)))
  {
    var h, f, c := HeadText(n), ForestText(n.body), LayoutText(n.close);
    assert h + (f + (c + "}")) + rest == h + (f + (c + ("}" + rest)));
  }

  lemma ForestCons(n: Node, ns: seq<Node>, tail: string, depth: nat, lim: Limits)
    requires NodeOk(n, depth, lim) && ForestOk(ns, depth, lim)
    ensures ForestOk([n] + ns, depth, lim)
    ensures NodeText(n) + (ForestText(ns) + tail) == ForestText([n] + ns) + tail
  {
    var all := [n] + ns;
    assert all[0] == n && all[1..] == ns;
    assert ForestText(all) == NodeText(n) + ForestText(ns);
    Flat(NodeText(n), ForestText(ns), tail);
  }

  lemma {:induction false} ItemSplit(text: string, line: nat, depth: nat, file: string, lim: Limits)
    returns (n: Option<Node>, g: seq<Piece>, note: Option<string>)
    requires ParseItem(text, line, depth, file, lim).Ok?
    ensures
      var (d, rest, _) := ParseItem(text, line, depth, file, lim).value;
      n.Some? == d.Some? &&
      (n.Some? ==> NodeOk(n.value, depth, lim) && text == NodeText(n.value) + rest) &&
      (n.None? ==> EndsWith(text, g, note, depth, rest))
    decreases |text|, 0
  {
    var ws;
    ws, g, note := LineSplit(text, line, NO_WORDS, lim.tokenBytes);
    n := None;
    var (lexed, rest, l) := Lex(text, line, Gap, NO_WORDS, lim.tokenBytes);
    if lexed.Ended? && !lexed.opens {
      n := Some(Simple(ws, g));
      HeadSplit(text, line, n.value, note, lim.tokenBytes);
    } else if lexed.Ended? {
      var body, close, end, tail := BlockSplit(rest, l, depth + 1, file, lim);
      n := Some(Node.Block(ws, g, body, close));
      BracesSplit(text, line, n.value, note, tail, end, depth, file, lim);
    }
  }

  lemma BracesSplit(text: string, line: nat, n: Node, note: Option<string>, tail: string, end: Option<string>,
                    depth: nat, file: string, lim: Limits)
    requires n.Block? && depth < lim.blockDepth
    requires
      var r := Lex(text, line, Gap, NO_WORDS, lim.tokenBytes);
      r.0.Ended? && r.0.opens && Decomposes(text, r, NO_WORDS, n.words, n.layout, note, lim.tokenBytes) &&
      var inner := ParseBlock(r.1, r.2, depth + 1, file, lim);
      inner.Ok? && ForestOk(n.body, depth + 1, lim) && r.1 == ForestText(n.body) + tail &&
      EndsWith(tail, n.close, end, depth + 1, inner.value.rest)
    ensures NodeOk(n, depth, lim)
    ensures ParseItem(text, line, depth, file, lim).Ok?
    ensures text == NodeText(n) + ParseItem(text, line, depth, file, lim).value.1
  {
    var r := Lex(text, line, Gap, NO_WORDS, lim.tokenBytes);
    HeadSplit(text, line, n, note, lim.tokenBytes);
    BlockText(n, ParseBlock(r.1, r.2, depth + 1, file, lim).value.rest);
  }

  lemma {:induction false} BlockSplit(text: string, line: nat, depth: nat, file: string, lim: Limits)
    returns (ns: seq<Node>, g: seq<Piece>, note: Option<string>, tail: string)
    requires ParseBlock(text, line, depth, file, lim).Ok?
    ensures ForestOk(ns, depth, lim) && text == ForestText(ns) + tail
    ensures EndsWith(tail, g, note, depth, ParseBlock(text, line, depth, file, lim).value.rest)
    decreases |text|, 1
  {
    var n;
    n, g, note := ItemSplit(text, line, depth, file, lim);
    ns, tail := [], text;
    if n.None? {
      assert text == "" + text;
    } else {
      var (_, after, l) := ParseItem(text, line, depth, file, lim).value;
      ns, g, note, tail := BlockSplit(after, l, depth, file, lim);
      ForestCons(n.value, ns, tail, depth, lim);
      ns := [n.value] + ns;
    }
  }

  // ---------------------------------------------------------------------------
  // Main results

  /** The parser succeeds on exactly the well-formed files, and returns the pruned forest of any reading. */
  lemma ParserMeetsGrammar(src: string, name: string, lim: Limits, ds: seq<Directive>)
    ensures Parse(src, name, lim) == Ok(ds)
       <==> exists f: File :: FileOk(f, lim) && FileText(f) == src && PrunedForest(f.nodes, 1, name) == ds
  {
    if Parse(src, name, lim) == Ok(ds) {
      var ns, g, note, _ := BlockSplit(src, 1, 0, name, lim);
      var f := File(ns, g, note);
      assert FileText(f) == src;
      FileParses(f, name, lim);
    }
    forall f: File | FileOk(f, lim) && FileText(f) == src && PrunedForest(f.nodes, 1, name) == ds
      ensures Parse(src, name, lim) == Ok(ds)
    {
      FileParses(f, name, lim);
    }
  }

  /** A directive tree as its author means it: words by value, no layout, nothing pruned. */
  datatype Tree = Leaf(words: seq<string>) | Branch(words: seq<string>, body: seq<Tree>)

  /** `"` and `\` behind a backslash. */
  function Escape(w: string): string {
    if |w| == 0 then ""
    else (if w[0] == '"' || w[0] == '\\' then ['\\', w[0]] else [w[0]]) + Escape(w[1..])
  }

  lemma {:induction false} EscapeUndone(w: string)
    ensures Unescape(Escape(w)) == w && RawQuoted(Escape(w), '"')
  {
    if |w| > 0 {
      EscapeUndone(w[1..]);
      var e := Escape(w[1..]);
      assert w == [w[0]] + w[1..];
      if w[0] == '"' || w[0] == '\\' {
        assert Escape(w)[2..] == e;
      } else {
        assert Escape(w)[1..] == e;
      }
    }
  }

  function Quoted(w: string): WordTok {
    WordTok([Blank(' ')], Double, Escape(w))
  }

  function QuotedAll(ws: seq<string>): seq<WordTok> {
    seq(|ws|, i requires 0 <= i < |ws| => Quoted(ws[i]))
  }

  function NodeOf(t: Tree): Node {
    match t
    case Leaf(ws) => Simple(QuotedAll(ws), [])
    case Branch(ws, body) => Node.Block(QuotedAll(ws), [], NodesOf(body), [])
  }

  function NodesOf(ts: seq<Tree>): seq<Node> {
    if |ts| == 0 then [] else [NodeOf(ts[0])] + NodesOf(ts[1..])
  }

  /** Each word in double quotes, one space before it. */
  function Print(ts: seq<Tree>): string {
    ForestText(NodesOf(ts))
  }

  /** Within the limits: every directive has a name, no word prints too long, no block is too deep. */
  predicate TreeOk(t: Tree, depth: nat, lim: Limits) {
    |t.words| > 0 && (forall w <- t.words :: |Escape(w)| <= lim.tokenBytes) &&
    (t.Branch? ==> depth < lim.blockDepth && TreesOk(t.body, depth + 1, lim))
  }

  predicate TreesOk(ts: seq<Tree>, depth: nat, lim: Limits) {
    |ts| == 0 || (TreeOk(ts[0], depth, lim) && TreesOk(ts[1..], depth, lim))
  }

  /** A directive without its place in the file. */
  datatype Shape = Shape(name: string, args: seq<string>, isBlock: bool, block: seq<Shape>)

  function ShapeOf(d: Directive): Shape {
    Shape(d.name, d.args, d.isBlock, ShapesOf(d.block))
  }

  function ShapesOf(ds: seq<Directive>): seq<Shape> {
    if |ds| == 0 then [] else [ShapeOf(ds[0])] + ShapesOf(ds[1..])
  }

  /** The tree pruned as the parser prunes it: no argument and no child outside the two keep lists. */
  function PrunedTree(t: Tree): Shape
    requires |t.words| > 0
    decreases t, 1
  {
    Shape(t.words[0], if t.words[0] in KEEP_ARGS then t.words[1..] else [], t.Branch?,
          if t.Branch? && t.words[0] in KEEP_CHILDREN then PrunedTrees(t.body) else [])
  }

  function PrunedTrees(ts: seq<Tree>): seq<Shape>
    decreases ts, 0
  {
    if |ts| == 0 then []
    else if |ts[0].words| == 0 then PrunedTrees(ts[1..])
    else [PrunedTree(ts[0])] + PrunedTrees(ts[1..])
  }

  lemma {:induction false} QuotedWordsOk(ws: seq<string>, tail: string, lim: nat)
    requires forall w <- ws :: |Escape(w)| <= lim
    requires |tail| > 0 && tail[0] in {';', '{'}
    ensures WordsOk(QuotedAll(ws), tail, lim)
  {
    if |ws| > 0 {
      var q := QuotedAll(ws);
      assert q[1..] == QuotedAll(ws[1..]);
      EscapeUndone(ws[0]);
      QuotedWordsOk(ws[1..], tail, lim);
      if |ws| > 1 {
        assert WordText(q[1])[0] == ' ';
      }
    }
  }

  lemma QuotedValues(ws: seq<string>)
    ensures Values(QuotedAll(ws)) == ws
  {
    forall i | 0 <= i < |ws| ensures Values(QuotedAll(ws))[i] == ws[i] {
      EscapeUndone(ws[i]);
    }
  }

  lemma {:induction false} TreeNode(t: Tree, depth: nat, line: nat, name: string, lim: Limits)
    requires TreeOk(t, depth, lim)
    ensures NodeOk(NodeOf(t), depth, lim) && ShapeOf(PrunedNode(NodeOf(t), line, name)) == PrunedTree(t)
    decreases t, 1
  {
    var n := NodeOf(t);
    QuotedWordsOk(t.words, LayoutText(n.layout) + Mark(n), lim.tokenBytes);
    QuotedValues(t.words);
    assert [] + t.words == t.words;
    if t.Branch? {
      TreeNodes(t.body, depth + 1, Down(line, HeadText(n)), name, lim);
    }
  }

  lemma {:induction false} TreeNodes(ts: seq<Tree>, depth: nat, line: nat, name: string, lim: Limits)
    requires TreesOk(ts, depth, lim)
    ensures ForestOk(NodesOf(ts), depth, lim)
    ensures ShapesOf(PrunedForest(NodesOf(ts), line, name)) == PrunedTrees(ts)
    decreases ts, 0
  {
    if |ts| > 0 {
      var n, rest := NodeOf(ts[0]), NodesOf(ts[1..]);
      assert NodesOf(ts)[1..] == rest;
      TreeNode(ts[0], depth, line, name, lim);
      TreeNodes(ts[1..], depth, Down(line, NodeText(n)), name, lim);
    }
  }

  /** Printing a tree and parsing the text gives the tree back, pruned. */
  lemma PrintedTreeParsesBack(ts: seq<Tree>, name: string, lim: Limits)
    requires TreesOk(ts, 0, lim)
    ensures Parse(Print(ts), name, lim).Ok?
    ensures ShapesOf(Parse(Print(ts), name, lim).value) == PrunedTrees(ts)
  {
    var f := File(NodesOf(ts), [], None);
    TreeNodes(ts, 0, 1, name, lim);
    assert FileText(f) == Print(ts);
    FileParses(f, name, lim);
  }

  /** What is left of a printed directive: the words of these nine after their name, the bodies of these four blocks. */
  predicate Survives(s: Shape, t: Tree)
    decreases t, 1
  {
    |t.words| > 0 &&
    var name := t.words[0];
    && s.name == name && s.isBlock == t.Branch?
    && s.args == (if name == "include" || name == "server_name" || name == "listen" || name == "location" || name == "proxy_pass"
                     || name == "set" || name == "upstream" || name == "server" || name == "ssl" then t.words[1..] else [])
    && if t.Branch? && (name == "http" || name == "server" || name == "location" || name == "upstream")
       then AllSurvive(s.block, t.body) else s.block == []
  }

  predicate AllSurvive(ss: seq<Shape>, ts: seq<Tree>)
    decreases ts, 0
  {
    if |ts| == 0 then ss == [] else |ss| > 0 && Survives(ss[0], ts[0]) && AllSurvive(ss[1..], ts[1..])
  }

  lemma {:induction false} PrunedSurvives(t: Tree, depth: nat, lim: Limits)
    requires TreeOk(t, depth, lim)
    ensures Survives(PrunedTree(t), t)
    decreases t, 1
  {
    if t.Branch? {
      PrunedAllSurvive(t.body, depth + 1, lim);
    }
  }

  lemma {:induction false} PrunedAllSurvive(ts: seq<Tree>, depth: nat, lim: Limits)
    requires TreesOk(ts, depth, lim)
    ensures AllSurvive(PrunedTrees(ts), ts)
    decreases ts, 0
  {
    if |ts| > 0 {
      PrunedSurvives(ts[0], depth, lim);
      PrunedAllSurvive(ts[1..], depth, lim);
      assert PrunedTrees(ts)[1..] == PrunedTrees(ts[1..]);
    }
  }

  /** A printed file parses to the directives in it, each with the words and the body the compiler reads. */
  lemma PrintedTreeSurvives(ts: seq<Tree>, name: string, lim: Limits)
    requires TreesOk(ts, 0, lim)
    ensures Parse(Print(ts), name, lim).Ok? && AllSurvive(ShapesOf(Parse(Print(ts), name, lim).value), ts)
  {
    PrintedTreeParsesBack(ts, name, lim);
    PrunedAllSurvive(ts, 0, lim);
  }

  /** Escaped quotes and backslashes stand for themselves, t, r and n for white space; any other pair stays a pair. */
  lemma EscapesStandFor(c: char, rest: string)
    ensures
      var text := ['\\', c] + rest;
      Unescape(text) ==
      if c == '"' || c == '\'' || c == '\\' then [c] + Unescape(rest)
      else if c == 't' then "\t" + Unescape(rest)
      else if c == 'r' then "\r" + Unescape(rest)
      else if c == 'n' then "\n" + Unescape(rest)
      else "\\" + Unescape([c] + rest)
  {
    var text := ['\\', c] + rest;
    assert text[2..] == rest && text[1..] == [c] + rest;
  }
}
