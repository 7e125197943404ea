/**
 The translation file and its reader: a dictionary is printed as JavaScript without the entries that
 say nothing, read back by the browser, and looked up by the English sentence, whose placeholders are
 then filled in.
 */
module Translations {
  import opened Wrappers

  // ---------------------------------------------------------------- escaping

  /** `s.replace(c, with)` for a single character. */
  function Replace(s: string, c: char, with: string): string {
    if s == [] then [] else (if s[0] == c then with else [s[0]]) + Replace(s[1..], c, with)
  }

  /** The five replacements, one after the other. */
  function Escaped(s: string): string {
    Replace(Replace(Replace(Replace(Replace(s, '\\', "\\\\"), '"', "\\\""), '\n', "\\n"), '\r', "\\r"), '\t', "\\t")
  }

  function Js(s: string): string { "\"" + Escaped(s) + "\"" }

  function EscapeOf(c: char): string {
    if c == '\\' then "\\\\"
    else if c == '"' then "\\\""
    else if c == '\n' then "\\n"
    else if c == '\r' then "\\r"
    else if c == '\t' then "\\t"
    else [c]
  }

  function EscapeEach(s: string): string { if s == [] then [] else EscapeOf(s[0]) + EscapeEach(s[1..]) }

  lemma {:induction false} ReplaceSplits(a: string, b: string, c: char, with: string)
    ensures Replace(a + b, c, with) == Replace(a, c, with) + Replace(b, c, with)
  {
    if a == [] {
      assert a + b == b;
    } else {
      assert (a + b)[0] == a[0] && (a + b)[1..] == a[1..] + b;
      ReplaceSplits(a[1..], b, c, with);
    }
  }

  lemma {:induction false} ReplaceOne(x: char, c: char, with: string)
    ensures Replace([x], c, with) == if x == c then with else [x]
  {
  }

  lemma {:induction false} ReplaceTwo(x: char, y: char, c: char, with: string)
    requires x != c && y != c
    ensures Replace([x, y], c, with) == [x, y]
  {
    assert [x, y][1..] == [y];
    ReplaceOne(y, c, with);
  }

  lemma {:induction false} EscapedSplits(a: string, b: string)
    ensures Escaped(a + b) == Escaped(a) + Escaped(b)
  {
    var a1, b1 := Replace(a, '\\', "\\\\"), Replace(b, '\\', "\\\\");
    var a2, b2 := Replace(a1, '"', "\\\""), Replace(b1, '"', "\\\"");
    var a3, b3 := Replace(a2, '\n', "\\n"), Replace(b2, '\n', "\\n");
    var a4, b4 := Replace(a3, '\r', "\\r"), Replace(b3, '\r', "\\r");
    ReplaceSplits(a, b, '\\', "\\\\");
    ReplaceSplits(a1, b1, '"', "\\\"");
    ReplaceSplits(a2, b2, '\n', "\\n");
    ReplaceSplits(a3, b3, '\r', "\\r");
    ReplaceSplits(a4, b4, '\t', "\\t");
  }

  /** A pair that starts with a backslash is not touched by the replacements of the other characters. */
  lemma {:induction false} PairStays(y: char)
    requires y !in {'"', '\n', '\r', '\t'}
    ensures Replace(Replace(Replace(Replace(['\\', y], '"', "\\\""), '\n', "\\n"), '\r', "\\r"), '\t', "\\t") == ['\\', y]
  {
    ReplaceTwo('\\', y, '"', "\\\"");
    ReplaceTwo('\\', y, '\n', "\\n");
    ReplaceTwo('\\', y, '\r', "\\r");
    ReplaceTwo('\\', y, '\t', "\\t");
  }

  lemma {:induction false} EscapedQuote()
    ensures Escaped("\"") == "\\\""
  {
  }

  lemma {:induction false} EscapedChar(c: char)
    ensures Escaped([c]) == EscapeOf(c)
  {
    ReplaceOne(c, '\\', "\\\\");
    if c == '\\' {
      PairStays('\\');
    } else if c == '"' {
      EscapedQuote();
    } else {
      ReplaceOne(c, '"', "\\\"");
      ReplaceOne(c, '\n', "\\n");
      if c == '\n' {
        ReplaceTwo('\\', 'n', '\r', "\\r");
        ReplaceTwo('\\', 'n', '\t', "\\t");
      } else {
        ReplaceOne(c, '\r', "\\r");
        if c == '\r' { ReplaceTwo('\\', 'r', '\t', "\\t"); } else { ReplaceOne(c, '\t', "\\t"); }
      }
    }
  }

  /** The chain of replacements escapes each character once, by itself. */
  lemma {:induction false} ChainIsPerCharacter(s: string)
    ensures Escaped(s) == EscapeEach(s)
  {
    if s != [] {
      assert s == [s[0]] + s[1..];
      EscapedSplits([s[0]], s[1..]);
      EscapedChar(s[0]);
      ChainIsPerCharacter(s[1..]);
    }
  }

  // ---------------------------------------------------------------- a JavaScript string literal

  /** What one escape stands for: the single-character escapes of section 12.9.4 of ECMA-262. */
  function Unescaped(c: char): Option<char> {
    if c == 'n' then Some('\n')
    else if c == 'r' then Some('\r')
    else if c == 't' then Some('\t')
    else if c == 'b' then Some(8 as char)
    else if c == 'f' then Some(12 as char)
    else if c == 'v' then Some(11 as char)
    else if c == 'x' || c == 'u' || '0' <= c <= '9' || c == '\n' || c == '\r' then None
    else Some(c)
  }

  /**
   The rest of a double-quoted literal, up to and including its closing quote, and what follows it.
   A line break in it is an error. Numeric escapes and line continuations, which the printer does not
   use, are not read here.
   */
  function Literal(s: string): Option<(string, string)>
    decreases |s|
  {
    if s == [] || s[0] == '\n' || s[0] == '\r' then None
    else if s[0] == '"' then Some(("", s[1..]))
    else if s[0] == '\\' then
      if |s| < 2 || Unescaped(s[1]).None? then None
      else match Literal(s[2..])
        case None => None
        case Some((value, rest)) => Some(([Unescaped(s[1]).value] + value, rest))
    else match Literal(s[1..])
      case None => None
      case Some((value, rest)) => Some(([s[0]] + value, rest))
  }

  lemma {:induction false} LiteralOfChar(c: char, tail: string, value: string, rest: string)
    requires Literal(tail) == Some((value, rest))
    ensures Literal(EscapeOf(c) + tail) == Some(([c] + value, rest))
  {
    var s := EscapeOf(c) + tail;
    if |EscapeOf(c)| == 2 {
      assert s[2..] == tail;
    } else {
      assert s[1..] == tail;
    }
  }

  /** Read as a literal, a printed string is the string it was printed from, and ends where it was ended. */
  lemma {:induction false} LiteralUndoesJs(s: string, rest: string)
    ensures Js(s)[0] == '"' && Literal((Js(s) + rest)[1..]) == Some((s, rest))
  {
    ChainIsPerCharacter(s);
    assert (Js(s) + rest)[1..] == EscapeEach(s) + ("\"" + rest);
    LiteralUndoesEscapes(s, rest);
  }

  lemma {:induction false} EscapeEachFirst(s: string, tail: string)
    requires s != []
    ensures EscapeEach(s) + tail == EscapeOf(s[0]) + (EscapeEach(s[1..]) + tail)
  {
  }

  lemma {:induction false} LiteralUndoesEscapes(s: string, rest: string)
    ensures Literal(EscapeEach(s) + ("\"" + rest)) == Some((s, rest))
  {
    var close := "\"" + rest;
    if s == [] {
      assert EscapeEach(s) + close == close && close[1..] == rest;
    } else {
      LiteralUndoesEscapes(s[1..], rest);
      EscapeEachFirst(s, close);
      LiteralOfChar(s[0], EscapeEach(s[1..]) + close, s[1..], rest);
      assert [s[0]] + s[1..] == s;
    }
  }

  /** Different strings print differently, and none prints a raw line break. */
  lemma {:induction false} JsIsSafe(s: string)
    ensures '\n' !in Js(s) && '\r' !in Js(s) && '\t' !in Js(s)
    ensures forall t: string :: Js(t) == Js(s) ==> t == s
  {
    ChainIsPerCharacter(s);
    NoRawBreaks(s);
    LiteralUndoesJs(s, "");
    forall t: string | Js(t) == Js(s) ensures t == s { LiteralUndoesJs(t, ""); }
  }

  lemma {:induction false} NoRawBreaks(s: string)
    ensures '\n' !in EscapeEach(s) && '\r' !in EscapeEach(s) && '\t' !in EscapeEach(s)
  {
    if s != [] { NoRawBreaks(s[1..]); }
  }

  // ---------------------------------------------------------------- the file

  datatype Entry = Entry(key: string, value: string)

  function EntryLine(e: Entry): string { "  " + Js(e.key) + ": " + Js(e.value) + "," }

  function TermLine(term: string): string { "  " + Js(term) + "," }

  /** The lines of the object, each with the line break that joins it to the next, and its end. */
  function ObjectText(es: seq<Entry>): string {
    if es == [] then "};" else EntryLine(es[0]) + "\n" + ObjectText(es[1..])
  }

  function ArrayText(terms: seq<string>): string {
    if terms == [] then "];" else TermLine(terms[0]) + "\n" + ArrayText(terms[1..])
  }

  function SkipBlanks(s: string): string {
    if s != [] && (s[0] == ' ' || s[0] == '\n') then SkipBlanks(s[1..]) else s
  }

  lemma {:induction false} SkipIsShorter(s: string)
    ensures |SkipBlanks(s)| <= |s|
  {
    if s != [] && (s[0] == ' ' || s[0] == '\n') { SkipIsShorter(s[1..]); }
  }

  function ReadString(s: string): Option<(string, string)> {
    var t := SkipBlanks(s);
    if t != [] && t[0] == '"' then Literal(t[1..]) else None
  }

  /** One character other than a blank. */
  function ReadMark(s: string, mark: char): Option<string> {
    var t := SkipBlanks(s);
    if t != [] && t[0] == mark then Some(t[1..]) else None
  }

  function ReadEntry(s: string): Option<(Entry, string)> {
    match ReadString(s)
    case None => None
    case Some((key, afterKey)) =>
      match ReadMark(afterKey, ':')
      case None => None
      case Some(afterColon) =>
        match ReadString(afterColon)
        case None => None
        case Some((value, afterValue)) =>
          match ReadMark(afterValue, ',')
          case None => None
          case Some(rest) => Some((Entry(key, value), rest))
  }

  /** Properties up to the closing brace: every one of them ends in a comma here. */
  function ReadObject(s: string): Option<(seq<Entry>, string)>
    decreases |s|
  {
    match ReadMark(s, '}')
    case Some(rest) => Some(([], rest))
    case None =>
      match ReadEntry(s)
      case None => None
      case Some((e, rest)) =>
        if |rest| >= |s| then None
        else match ReadObject(rest)
          case None => None
          case Some((es, end)) => Some(([e] + es, end))
  }

  function ReadArray(s: string): Option<(seq<string>, string)>
    decreases |s|
  {
    match ReadMark(s, ']')
    case Some(rest) => Some(([], rest))
    case None =>
      match ReadString(s)
      case None => None
      case Some((term, afterTerm)) =>
        match ReadMark(afterTerm, ',')
        case None => None
        case Some(rest) =>
          if |rest| >= |s| then None
          else match ReadArray(rest)
            case None => None
            case Some((terms, end)) => Some(([term] + terms, end))
  }

  lemma {:induction false} ReadPrinted(value: string, rest: string)
    ensures ReadString(Js(value) + rest) == Some((value, rest))
    ensures SkipBlanks(Js(value) + rest) == Js(value) + rest
  {
    LiteralUndoesJs(value, rest);
    assert (Js(value) + rest)[0] == '"';
  }

  lemma {:induction false} ReadSpaced(value: string, rest: string)
    ensures ReadString(" " + (Js(value) + rest)) == Some((value, rest))
  {
    ReadPrinted(value, rest);
    assert (" " + (Js(value) + rest))[1..] == Js(value) + rest;
  }

  lemma {:induction false} ReadMarkHere(mark: char, rest: string)
    requires mark != ' ' && mark != '\n'
    ensures ReadMark([mark] + rest, mark) == Some(rest)
  {
  }

  lemma {:induction false} SkipTwo(s: string)
    ensures SkipBlanks("  " + s) == SkipBlanks(s) && SkipBlanks("\n" + s) == SkipBlanks(s)
  {
  }

  lemma {:induction false} ReadPrintedEntry(e: Entry, rest: string)
    ensures ReadEntry(EntryLine(e) + rest) == Some((e, rest))
    ensures ReadMark(EntryLine(e) + rest, '}').None?
  {
    var afterValue := "," + rest;
    var afterColon := " " + (Js(e.value) + afterValue);
    var afterKey := ":" + afterColon;
    var printed := Js(e.key) + afterKey;
    assert EntryLine(e) + rest == "  " + printed;
    SkipTwo(printed);
    ReadPrinted(e.key, afterKey);
    ReadMarkHere(':', afterColon);
    ReadSpaced(e.value, afterValue);
    ReadMarkHere(',', rest);
    assert printed[0] == '"';
  }

  lemma {:induction false} ReadObjectStep(e: Entry, tail: string, es: seq<Entry>, end: string)
    requires ReadObject(tail) == Some((es, end))
    ensures ReadObject(EntryLine(e) + tail) == Some(([e] + es, end))
  {
    ReadPrintedEntry(e, tail);
    assert |tail| < |EntryLine(e) + tail|;
  }

  lemma {:induction false} ReadObjectAfterBreak(s: string)
    requires ReadObject(s).Some?
    ensures ReadObject("\n" + s) == ReadObject(s)
  {
  }

  lemma {:induction false} ObjectTextFirst(es: seq<Entry>, rest: string)
    ensures es != [] ==> ObjectText(es) + rest == EntryLine(es[0]) + ("\n" + (ObjectText(es[1..]) + rest))
    ensures es == [] ==> ObjectText(es) + rest == "}" + (";" + rest)
  {
  }

  /** Reading the printed object gives its entries back, in order, and what follows it. */
  lemma {:induction false} ReadUndoesObject(es: seq<Entry>, rest: string)
    ensures ReadObject(ObjectText(es) + rest) == Some((es, ";" + rest))
    decreases |es|
  {
    ObjectTextFirst(es, rest);
    if es == [] {
      ReadMarkHere('}', ";" + rest);
    } else {
      var later := ObjectText(es[1..]) + rest;
      ReadUndoesObject(es[1..], rest);
      ReadObjectAfterBreak(later);
      ReadObjectStep(es[0], "\n" + later, es[1..], ";" + rest);
      assert [es[0]] + es[1..] == es;
    }
  }

  lemma {:induction false} ReadPrintedTerm(term: string, tail: string)
    ensures ReadString(TermLine(term) + tail) == Some((term, "," + tail)) && ReadMark("," + tail, ',') == Some(tail)
    ensures ReadMark(TermLine(term) + tail, ']').None?
  {
    var printed := Js(term) + ("," + tail);
    assert TermLine(term) + tail == "  " + printed;
    SkipTwo(printed);
    ReadPrinted(term, "," + tail);
    ReadMarkHere(',', tail);
    assert printed[0] == '"';
  }

  lemma {:induction false} ReadArrayStep(term: string, tail: string, terms: seq<string>, end: string)
    requires ReadArray(tail) == Some((terms, end))
    ensures ReadArray(TermLine(term) + tail) == Some(([term] + terms, end))
  {
    ReadPrintedTerm(term, tail);
    assert |tail| < |TermLine(term) + tail|;
  }

  lemma {:induction false} ArrayTextFirst(terms: seq<string>, rest: string)
    ensures terms != [] ==>
              ArrayText(terms) + rest == TermLine(terms[0]) + ("\n" + (ArrayText(terms[1..]) + rest))
    ensures terms == [] ==> ArrayText(terms) + rest == "]" + (";" + rest)
  {
  }

  lemma {:induction false} ReadUndoesArray(terms: seq<string>, rest: string)
    ensures ReadArray(ArrayText(terms) + rest) == Some((terms, ";" + rest))
    decreases |terms|
  {
    ArrayTextFirst(terms, rest);
    if terms == [] {
      ReadMarkHere(']', ";" + rest);
    } else {
      var later := ArrayText(terms[1..]) + rest;
      ReadUndoesArray(terms[1..], rest);
      ReadArrayStep(terms[0], "\n" + later, terms[1..], ";" + rest);
      assert [terms[0]] + terms[1..] == terms;
    }
  }

  predicate IsBlank(c: char) { c == ' ' || c == '\n' }

  predicate Blank(s: string) { forall c :: c in s ==> IsBlank(c) }

  lemma {:induction false} SkipGap(gap: string, s: string)
    requires Blank(gap)
    ensures SkipBlanks(gap + s) == SkipBlanks(s)
    decreases |gap|
  {
    if gap == [] {
      assert gap + s == s;
    } else {
      assert gap[0] in gap;
      assert (gap + s)[0] == gap[0] && (gap + s)[1..] == gap[1..] + s;
      SkipGap(gap[1..], s);
    }
  }

  /** What follows the end of a comment. */
  function AfterComment(s: string): Option<string> {
    if |s| < 2 then None else if s[0] == '*' && s[1] == '/' then Some(s[2..]) else AfterComment(s[1..])
  }

  /** A text that can stand in a comment. */
  predicate CanComment(text: string) {
    forall i: int :: 0 <= i < |text| - 1 ==> !(text[i] == '*' && text[i + 1] == '/')
  }

  lemma {:induction false} CommentEnds(text: string, rest: string)
    requires CanComment(text)
    ensures AfterComment(text + ("*/" + rest)) == Some(rest)
    decreases |text|
  {
    var s := text + ("*/" + rest);
    if text == [] {
      assert s == "*/" + rest && s[2..] == rest;
    } else {
      assert s[0] == text[0] && s[1..] == text[1..] + ("*/" + rest);
      assert |text| > 1 ==> s[1] == text[1];
      assert |text| == 1 ==> s[1] == '*';
      CommentEnds(text[1..], rest);
    }
  }

  function ReadWords(s: string, words: string): Option<string> {
    var t := SkipBlanks(s);
    if words <= t then Some(t[|words|..]) else None
  }

  lemma {:induction false} ReadWordsHere(gap: string, words: string, rest: string)
    requires Blank(gap) && words != [] && !IsBlank(words[0])
    ensures ReadWords(gap + (words + rest), words) == Some(rest)
  {
    SkipGap(gap, words + rest);
    assert (words + rest)[0] == words[0];
    assert (words + rest)[|words|..] == rest;
  }

  /** A comment and the words that open an export. */
  function ReadOpening(s: string, words: string): Option<string> {
    match ReadWords(s, "/*")
    case None => None
    case Some(comment) =>
      match AfterComment(comment)
      case None => None
      case Some(rest) => ReadWords(rest, words)
  }

  function Opening(comment: string, gap: string, words: string): string { "/*" + comment + "*/" + gap + words + "\n" }

  lemma {:induction false} ReadUndoesOpening(before: string, comment: string, gap: string, words: string, rest: string)
    requires Blank(before) && Blank(gap) && words != [] && !IsBlank(words[0]) && CanComment(comment)
    ensures ReadOpening(before + (Opening(comment, gap, words) + rest), words) == Some("\n" + rest)
  {
    var after := gap + (words + ("\n" + rest));
    assert Opening(comment, gap, words) + rest == "/*" + (comment + ("*/" + after));
    ReadWordsHere(before, "/*", comment + ("*/" + after));
    CommentEnds(comment, after);
    ReadWordsHere(gap, words, "\n" + rest);
  }

  const VI := "export const vi = {"
  const KEPT := "export const keptInEnglish = ["

  /** A whole file: two exports, each under its comment, and nothing else. */
  function ReadFile(s: string): Option<(seq<Entry>, seq<string>)> {
    match ReadOpening(s, VI)
    case None => None
    case Some(body) => ReadExports(body)
  }

  function ReadExports(s: string): Option<(seq<Entry>, seq<string>)> {
    match ReadObject(s)
    case None => None
    case Some((es, afterObject)) =>
      match ReadMark(afterObject, ';')
      case None => None
      case Some(second) =>
        match ReadKept(second)
        case None => None
        case Some(terms) => Some((es, terms))
  }

  function ReadKept(s: string): Option<seq<string>> {
    match ReadOpening(s, KEPT)
    case None => None
    case Some(list) =>
      match ReadArray(list)
      case None => None
      case Some((terms, afterArray)) =>
        match ReadMark(afterArray, ';')
        case None => None
        case Some(end) => if SkipBlanks(end) == [] then Some(terms) else None
  }

  // ---------------------------------------------------------------- the generator

  type Dictionary = map<string, string>

  /** Later parts win. */
  function MergeAll(parts: seq<Dictionary>): Dictionary
  {
    if parts == [] then map[] else MergeAll(parts[..|parts| - 1]) + parts[|parts| - 1]
  }

  function SaysSomething(m: Dictionary): Dictionary { map key | key in m && m[key] != key :: m[key] }

  function KeptInEnglish(m: Dictionary): set<string> { set key | key in m && m[key] == key }

  /** A sorted listing of a set: which order it is does not matter here. */
  ghost predicate Lists(order: seq<string>, keys: set<string>) {
    && (forall i, j :: 0 <= i < j < |order| ==> order[i] != order[j])
    && (forall key :: key in order <==> key in keys)
  }

  function EntriesOf(m: Dictionary, order: seq<string>): seq<Entry>
    requires forall key :: key in order ==> key in m
  {
    seq(|order|, i requires 0 <= i < |order| => Entry(order[i], m[order[i]]))
  }

  function KeptText(terms: seq<string>, note: string): string {
    Opening(note, "\n", KEPT) + ArrayText(terms) + "\n"
  }

  /** The file, under the wording of its two comments. */
  function FileText(m: Dictionary, order: seq<string>, terms: seq<string>, header: string, note: string): string
    requires forall key :: key in order ==> key in m
  {
    Opening(header, "\n\n", VI) + (ObjectText(EntriesOf(m, order)) + ("\n\n" + KeptText(terms, note)))
  }

  method Merge(parts: seq<Dictionary>) returns (merged: Dictionary)
    ensures merged == MergeAll(parts)
  {
    merged := map[];
    var i := 0;
    while i < |parts|
      invariant i <= |parts| && merged == MergeAll(parts[..i])
    {
      assert parts[..i + 1][..i] == parts[..i];
      merged := merged + parts[i];
      i := i + 1;
    }
    assert parts[..i] == parts;
  }

  lemma {:induction false} LastPartWins(parts: seq<Dictionary>, i: nat, key: string)
    requires i < |parts| && key in parts[i] && forall j :: i < j < |parts| ==> key !in parts[j]
    ensures key in MergeAll(parts) && MergeAll(parts)[key] == parts[i][key]
    decreases |parts|
  {
    if i < |parts| - 1 { LastPartWins(parts[..|parts| - 1], i, key); }
  }

  function LinesText(lines: seq<string>): string {
    if lines == [] then [] else lines[0] + "\n" + LinesText(lines[1..])
  }

  lemma {:induction false} LinesAppend(lines: seq<string>, line: string)
    ensures LinesText(lines + [line]) == LinesText(lines) + line + "\n"
  {
    if lines == [] {
      assert lines + [line] == [line] && [line][1..] == [];
    } else {
      assert (lines + [line])[0] == lines[0] && (lines + [line])[1..] == lines[1..] + [line];
      LinesAppend(lines[1..], line);
    }
  }

  lemma {:induction false} ObjectTextAppend(es: seq<Entry>, lines: seq<string>)
    requires |lines| == |es| && forall i :: 0 <= i < |es| ==> lines[i] == EntryLine(es[i])
    ensures ObjectText(es) == LinesText(lines) + "};"
  {
    if es != [] { ObjectTextAppend(es[1..], lines[1..]); }
  }

  lemma {:induction false} ArrayTextAppend(terms: seq<string>, lines: seq<string>)
    requires |lines| == |terms| && forall i :: 0 <= i < |terms| ==> lines[i] == TermLine(terms[i])
    ensures ArrayText(terms) == LinesText(lines) + "];"
  {
    if terms != [] { ArrayTextAppend(terms[1..], lines[1..]); }
  }

  /** Builds the two lists of lines the way the script does and joins them. */
  method Generate(m: Dictionary, order: seq<string>, terms: seq<string>, header: string, note: string)
    returns (text: string)
    requires Lists(order, SaysSomething(m).Keys) && Lists(terms, KeptInEnglish(m))
    ensures text == FileText(SaysSomething(m), order, terms, header, note)
  {
    var said := SaysSomething(m);
    var lines, i := [], 0;
    while i < |order|
      invariant i <= |order| == |EntriesOf(said, order)|
      invariant |lines| == i && forall k :: 0 <= k < i ==> lines[k] == EntryLine(EntriesOf(said, order)[k])
    {
      lines := lines + ["  " + Js(order[i]) + ": " + Js(said[order[i]]) + ","];
      i := i + 1;
    }
    ObjectTextAppend(EntriesOf(said, order), lines);
    var terms' := [];
    i := 0;
    while i < |terms|
      invariant i <= |terms| && |terms'| == i && forall k :: 0 <= k < i ==> terms'[k] == TermLine(terms[k])
    {
      terms' := terms' + ["  " + Js(terms[i]) + ","];
      i := i + 1;
    }
    ArrayTextAppend(terms, terms');
    text := Opening(note, "\n", KEPT) + (LinesText(terms') + "];") + "\n";
    text := Opening(header, "\n\n", VI) + ((LinesText(lines) + "};") + ("\n\n" + text));
  }

  // ---------------------------------------------------------------- looking up

  /**
   The object the literal makes. A later entry replaces an earlier one, and a property written as
   `__proto__` sets no property at all (section B.3.1 of ECMA-262).
   */
  function ObjectOf(es: seq<Entry>): Dictionary
  {
    if es == [] then map[]
    else
      var last := es[|es| - 1];
      var rest := ObjectOf(es[..|es| - 1]);
      if last.key == "__proto__" then rest else rest[last.key := last.value]
  }

  /** The translation if there is one that is not empty, and the English otherwise. */
  function LookUp(d: Dictionary, text: string): string {
    if text != "" && text in d && d[text] != "" then d[text] else text
  }

  lemma {:induction false} ObjectOfListing(m: Dictionary, order: seq<string>)
    requires forall key :: key in order ==> key in m
    ensures ObjectOf(EntriesOf(m, order)).Keys == (set key | key in order) - {"__proto__"}
    ensures forall key :: key in ObjectOf(EntriesOf(m, order)) ==>
              key in m && ObjectOf(EntriesOf(m, order))[key] == m[key]
    decreases |order|
  {
    if order != [] {
      var shorter := order[..|order| - 1];
      assert EntriesOf(m, order)[..|order| - 1] == EntriesOf(m, shorter);
      assert order == shorter + [order[|order| - 1]];
      ObjectOfListing(m, shorter);
    }
  }

  lemma {:induction false} ReadUndoesKept(before: string, terms: seq<string>, note: string)
    requires Blank(before) && CanComment(note)
    ensures ReadKept(before + KeptText(terms, note)) == Some(terms)
  {
    var list := ArrayText(terms) + "\n";
    assert KEPT[0] == 'e';
    ReadUndoesOpening(before, note, "\n", KEPT, list);
    assert Opening(note, "\n", KEPT) + list == KeptText(terms, note);
    ReadUndoesArray(terms, "\n");
    ReadMarkHere(';', "\n");
    SkipGap("\n", []);
    assert "\n" + [] == "\n";
  }

  lemma {:induction false} ReadUndoesExports(es: seq<Entry>, terms: seq<string>, note: string)
    requires CanComment(note)
    ensures ReadExports("\n" + (ObjectText(es) + ("\n\n" + KeptText(terms, note)))) == Some((es, terms))
  {
    var rest := "\n\n" + KeptText(terms, note);
    ReadUndoesObject(es, rest);
    ReadObjectAfterBreak(ObjectText(es) + rest);
    ReadMarkHere(';', rest);
    ReadUndoesKept("\n\n", terms, note);
  }

  lemma {:induction false} ReadUndoesFile(es: seq<Entry>, terms: seq<string>, header: string, note: string)
    requires CanComment(header) && CanComment(note)
    ensures ReadFile(Opening(header, "\n\n", VI) + (ObjectText(es) + ("\n\n" + KeptText(terms, note))))
         == Some((es, terms))
  {
    var body := ObjectText(es) + ("\n\n" + KeptText(terms, note));
    var start := Opening(header, "\n\n", VI);
    assert VI[0] == 'e';
    ReadUndoesOpening([], header, "\n\n", VI, body);
    assert [] + (start + body) == start + body;
    ReadUndoesExports(es, terms, note);
  }

  /** Reading the generated file gives the dictionary without what says nothing, and the list of what was left out. */
  lemma {:induction false} ReadUndoesGenerate(m: Dictionary, order: seq<string>, terms: seq<string>, header: string,
                                              note: string)
    requires Lists(order, SaysSomething(m).Keys) && Lists(terms, KeptInEnglish(m))
    requires CanComment(header) && CanComment(note)
    ensures ReadFile(FileText(SaysSomething(m), order, terms, header, note))
         == Some((EntriesOf(SaysSomething(m), order), terms))
  {
    ReadUndoesFile(EntriesOf(SaysSomething(m), order), terms, header, note);
  }

  /** The one entry a JavaScript object literal cannot hold. */
  predicate Unspeakable(m: Dictionary) {
    "__proto__" in m && m["__proto__"] != "" && m["__proto__"] != "__proto__"
  }

  lemma {:induction false} LookUpAgrees(m: Dictionary, order: seq<string>, text: string)
    requires Lists(order, SaysSomething(m).Keys)
    ensures LookUp(ObjectOf(EntriesOf(SaysSomething(m), order)), text) == LookUp(m, text) <==>
            !(text == "__proto__" && Unspeakable(m))
  {
    ObjectOfListing(SaysSomething(m), order);
  }

  /**
   Generating, reading and looking up is the same as looking up in the merged dictionary, for every
   text, exactly if the dictionary does not translate `__proto__`.
   */
  lemma {:induction false} GeneratedLooksUpTheSameIff(m: Dictionary, order: seq<string>, terms: seq<string>,
                                                      header: string, note: string)
    requires Lists(order, SaysSomething(m).Keys) && Lists(terms, KeptInEnglish(m))
    requires CanComment(header) && CanComment(note)
    ensures var file := ReadFile(FileText(SaysSomething(m), order, terms, header, note));
      && file.Some?
      && ((forall text :: LookUp(ObjectOf(file.value.0), text) == LookUp(m, text)) <==> !Unspeakable(m))
  {
    ReadUndoesGenerate(m, order, terms, header, note);
    var d := ObjectOf(EntriesOf(SaysSomething(m), order));
    forall text ensures LookUp(d, text) == LookUp(m, text) <==> !(text == "__proto__" && Unspeakable(m)) {
      LookUpAgrees(m, order, text);
    }
    if Unspeakable(m) { assert LookUp(d, "__proto__") != LookUp(m, "__proto__"); }
  }

  /** A dictionary with that one entry: its key comes back in English. */
  lemma {:induction false} ProtoIsLost()
    ensures var m := map["__proto__" := "x"]; var d := ObjectOf(EntriesOf(m, ["__proto__"]));
      && Lists(["__proto__"], SaysSomething(m).Keys) && Lists([], KeptInEnglish(m))
      && LookUp(m, "__proto__") == "x" && LookUp(d, "__proto__") == "__proto__"
  {
    var m := map["__proto__" := "x"];
    ObjectOfListing(m, ["__proto__"]);
    assert SaysSomething(m) == m;
  }

  /** Leaving out the entries that say nothing changes no lookup at all. */
  lemma {:induction false} PruningKeepsMeaning(m: Dictionary, text: string)
    ensures LookUp(SaysSomething(m), text) == LookUp(m, text)
    ensures text in m <==> (text in SaysSomething(m)) != (text in KeptInEnglish(m))
  {
  }

  // ---------------------------------------------------------------- placeholders

  predicate IsWordChar(c: char) { 'a' <= c <= 'z' || 'A' <= c <= 'Z' || '0' <= c <= '9' || c == '_' }

  function Word(s: string): string { if s == [] || !IsWordChar(s[0]) then [] else [s[0]] + Word(s[1..]) }

  lemma {:induction false} WordIsPrefix(s: string)
    ensures |Word(s)| <= |s| && s[..|Word(s)|] == Word(s)
  {
    if s != [] && IsWordChar(s[0]) { WordIsPrefix(s[1..]); }
  }

  /** The name of the placeholder that starts here, if one does: a brace, a word, a brace. */
  function Hole(s: string): Option<string> {
    if s == [] || s[0] != '{' then None
    else
      var name := Word(s[1..]);
      if name != [] && |s| > |name| + 1 && s[|name| + 1] == '}' then Some(name) else None
  }

  lemma {:induction false} WordOf(name: string, rest: string)
    requires (forall c :: c in name ==> IsWordChar(c)) && (rest != [] ==> !IsWordChar(rest[0]))
    ensures Word(name + rest) == name
    decreases |name|
  {
    if name == [] {
      assert name + rest == rest;
    } else {
      assert name[0] in name && (name + rest)[1..] == name[1..] + rest;
      WordOf(name[1..], rest);
    }
  }

  lemma {:induction false} WordChars(s: string)
    ensures forall c :: c in Word(s) ==> IsWordChar(c)
  {
    if s != [] { WordChars(s[1..]); }
  }

  /** Letters, digits and underscores, at least one, between braces. */
  predicate StartsWithHole(s: string, name: string) {
    && name != []
    && (forall c :: c in name ==> 'a' <= c <= 'z' || 'A' <= c <= 'Z' || '0' <= c <= '9' || c == '_')
    && "{" + name + "}" <= s
  }

  /** Which texts are placeholders, and of what name. */
  lemma {:induction false} HoleIff(s: string, name: string)
    ensures Hole(s) == Some(name) <==> StartsWithHole(s, name)
  {
    if StartsWithHole(s, name) {
      var rest := s[|name| + 1..];
      assert s[1..] == name + rest && rest[0] == '}';
      WordOf(name, rest);
    }
    if Hole(s) == Some(name) {
      WordChars(s[1..]);
      WordIsPrefix(s[1..]);
      assert s[..|name| + 2] == "{" + name + "}";
    }
  }

  function HoleLength(name: string): nat { |name| + 2 }

  lemma {:induction false} HoleFits(s: string)
    requires Hole(s).Some?
    ensures HoleLength(Hole(s).value) <= |s| && s[..HoleLength(Hole(s).value)] == "{" + Hole(s).value + "}"
  {
    WordIsPrefix(s[1..]);
  }

  /** Something to put in a placeholder, and the text it shows; an element cannot become text by itself. */
  datatype Value = Plain(text: string) | Element(text: string)

  type Values = map<string, Value>

  /** Every placeholder with a value replaced by its text; the others are left standing. */
  function Fill(s: string, values: Values): string
    decreases |s|
  {
    if s == [] then []
    else if Hole(s).Some? then
      var name := Hole(s).value;
      HoleFits(s);
      (if name in values then values[name].text else s[..HoleLength(name)]) + Fill(s[HoleLength(name)..], values)
    else [s[0]] + Fill(s[1..], values)
  }

  datatype Part = Text(text: string) | Filled(value: Value)

  function Shown(p: Part): string { if p.Text? then p.text else p.value.text }

  function ShownAll(parts: seq<Part>): string {
    if parts == [] then [] else Shown(parts[0]) + ShownAll(parts[1..])
  }

  lemma {:induction false} ShownAppends(parts: seq<Part>, p: Part)
    ensures ShownAll(parts + [p]) == ShownAll(parts) + Shown(p)
  {
    if parts == [] {
      assert parts + [p] == [p] && [p][1..] == [];
    } else {
      assert (parts + [p])[0] == parts[0] && (parts + [p])[1..] == parts[1..] + [p];
      ShownAppends(parts[1..], p);
    }
  }

  lemma {:induction false} FillPast(s: string, values: Values, i: nat)
    requires i < |s| && Hole(s[i..]).None?
    ensures Fill(s[i..], values) == [s[i]] + Fill(s[i + 1..], values)
  {
    assert s[i..][1..] == s[i + 1..];
  }

  lemma {:induction false} FillHole(s: string, values: Values, i: nat)
    requires i < |s| && Hole(s[i..]).Some?
    ensures var name := Hole(s[i..]).value; var next := i + HoleLength(name);
      && next <= |s|
      && Fill(s[i..], values) == (if name in values then values[name].text else s[i..next]) + Fill(s[next..], values)
  {
    HoleFits(s[i..]);
    var n := HoleLength(Hole(s[i..]).value);
    assert s[i..][n..] == s[i + n..] && s[i..][..n] == s[i..i + n];
  }

  /** Adds the text between two values, unless there is none. */
  function WithText(parts: seq<Part>, text: string): seq<Part> { if text == "" then parts else parts + [Text(text)] }

  lemma {:induction false} WithTextShows(parts: seq<Part>, text: string)
    ensures ShownAll(WithText(parts, text)) == ShownAll(parts) + text
  {
    if text != "" { ShownAppends(parts, Text(text)); }
  }

  /** Up to `i` and from there on, with everything between `last` and `i` standing as it is. */
  ghost predicate Splits(whole: string, parts: seq<Part>, standing: string, rest: string) {
    whole == ShownAll(parts) + (standing + rest)
  }

  lemma {:induction false} StandsToo(whole: string, parts: seq<Part>, standing: string, more: string, rest: string)
    requires Splits(whole, parts, standing, more + rest)
    ensures Splits(whole, parts, standing + more, rest)
  {
    assert standing + (more + rest) == standing + more + rest;
  }

  lemma {:induction false} Replaced(whole: string, parts: seq<Part>, standing: string, value: Value, rest: string)
    requires Splits(whole, parts, standing, value.text + rest)
    ensures Splits(whole, WithText(parts, standing) + [Filled(value)], "", rest)
  {
    WithTextShows(parts, standing);
    ShownAppends(WithText(parts, standing), Filled(value));
    Associates(ShownAll(parts), standing, value.text, rest);
    assert "" + rest == rest;
  }

  lemma {:induction false} Associates(a: string, b: string, c: string, d: string)
    ensures a + (b + (c + d)) == a + b + c + d
  {
  }

  /** Where the scan goes on from, and the value it met on the way, if any. */
  function Scan(s: string, values: Values, i: nat): (nat, Option<Value>)
    requires i < |s|
  {
    var hole := Hole(s[i..]);
    if hole.None? then (i + 1, None)
    else (i + HoleLength(hole.value), if hole.value in values then Some(values[hole.value]) else None)
  }

  lemma {:induction false} ScanFills(s: string, values: Values, i: nat)
    requires i < |s|
    ensures var (next, value) := Scan(s, values, i);
      && i < next <= |s|
      && Fill(s[i..], values) == (if value.Some? then value.value.text else s[i..next]) + Fill(s[next..], values)
  {
    if Hole(s[i..]).None? { FillPast(s, values, i); } else { FillHole(s, values, i); }
  }

  ghost predicate IsValue(value: Value, values: Values) { exists name :: name in values && values[name] == value }

  /** Texts that are not empty, and values that were given. */
  ghost predicate Sensible(parts: seq<Part>, values: Values) {
    forall i :: 0 <= i < |parts| ==> if parts[i].Text? then parts[i].text != "" else IsValue(parts[i].value, values)
  }

  lemma {:induction false} SensibleGrows(parts: seq<Part>, text: string, value: Value, values: Values)
    requires Sensible(parts, values)
    ensures Sensible(WithText(parts, text), values)
    ensures IsValue(value, values) ==> Sensible(WithText(parts, text) + [Filled(value)], values)
  {
  }

  lemma {:induction false} ScanFromValues(s: string, values: Values, i: nat)
    requires i < |s|
    ensures Scan(s, values, i).1.Some? ==> IsValue(Scan(s, values, i).1.value, values)
  {
  }

  /** Everything before `last` is in the parts, and nothing from there to `i` is to be replaced. */
  ghost predicate FilledSoFar(s: string, values: Values, parts: seq<Part>, last: nat, i: nat) {
    && last <= i <= |s| && Sensible(parts, values)
    && Splits(Fill(s, values), parts, s[last..i], Fill(s[i..], values))
  }

  lemma {:induction false} NothingFilledYet(s: string, values: Values)
    ensures FilledSoFar(s, values, [], 0, 0)
  {
    assert s[0..] == s && s[0..0] == "";
  }

  lemma {:induction false} FilledFurther(s: string, values: Values, parts: seq<Part>, last: nat, i: nat)
    requires FilledSoFar(s, values, parts, last, i) && i < |s|
    ensures var (next, value) := Scan(s, values, i);
      if value.Some? then
        last <= i && FilledSoFar(s, values, WithText(parts, s[last..i]) + [Filled(value.value)], next, next)
      else FilledSoFar(s, values, parts, last, next)
  {
    var (next, value) := Scan(s, values, i);
    var rest := Fill(s[next..], values);
    ScanFills(s, values, i);
    if value.Some? {
      ScanFromValues(s, values, i);
      SensibleGrows(parts, s[last..i], value.value, values);
      Replaced(Fill(s, values), parts, s[last..i], value.value, rest);
      assert s[next..next] == "";
    } else {
      StandsToo(Fill(s, values), parts, s[last..i], s[i..next], rest);
      assert s[last..next] == s[last..i] + s[i..next];
    }
  }

  lemma {:induction false} FilledToTheEnd(s: string, values: Values, parts: seq<Part>, last: nat)
    requires FilledSoFar(s, values, parts, last, |s|)
    ensures ShownAll(WithText(parts, s[last..])) == Fill(s, values) && Sensible(WithText(parts, s[last..]), values)
  {
    SensibleGrows(parts, s[last..], Plain(""), values);
    WithTextShows(parts, s[last..]);
    assert s[|s|..] == [] && s[last..|s|] + "" == s[last..];
  }

  /**
   The sentence as parts, for values that are elements. Shown one after the other, each value as its
   text, the parts are the filled sentence; no part is an empty text.
   */
  method InParts(s: string, values: Values) returns (parts: seq<Part>)
    ensures ShownAll(parts) == Fill(s, values)
    ensures Sensible(parts, values)
  {
    parts := [];
    var last: nat, i: nat := 0, 0;
    NothingFilledYet(s, values);
    while i < |s|
      invariant FilledSoFar(s, values, parts, last, i)
      decreases |s| - i
    {
      FilledFurther(s, values, parts, last, i);
      var (next, value) := Scan(s, values, i);
      if value.Some? {
        parts := WithText(parts, s[last..i]) + [Filled(value.value)];
        last := next;
      }
      i := next;
    }
    FilledToTheEnd(s, values, parts, last);
    parts := WithText(parts, s[last..]);
  }

  /** A sentence without a placeholder that has a value is left as it is. */
  lemma {:induction false} UnknownHolesStand(s: string, values: Values, i: nat)
    requires i <= |s|
    requires forall k :: i <= k < |s| ==> Scan(s, values, k).1.None?
    ensures Fill(s[i..], values) == s[i..]
    decreases |s| - i
  {
    if i < |s| {
      var next := Scan(s, values, i).0;
      ScanFills(s, values, i);
      UnknownHolesStand(s, values, next);
      CutAt(s, i, next);
    }
  }

  lemma {:induction false} CutAt(s: string, i: nat, next: nat)
    requires i <= next <= |s|
    ensures s[i..] == s[i..next] + s[next..]
  {
  }

  datatype Output = OneText(text: string) | Parts(parts: seq<Part>)

  function OutputText(o: Output): string { if o.OneText? then o.text else ShownAll(o.parts) }

  /** Looking a sentence up and filling it in; either way of filling shows the same. */
  method Translate(d: Dictionary, text: string, values: Option<Values>) returns (out: Output)
    ensures OutputText(out) == if values.None? || text == "" then LookUp(d, text) else Fill(LookUp(d, text), values.value)
    ensures out.Parts? <==>
            text != "" && values.Some? && exists name :: name in values.value && values.value[name].Element?
  {
    if text == "" { return OneText(text); }
    var found := LookUp(d, text);
    if values.None? { return OneText(found); }
    if forall name | name in values.value :: values.value[name].Plain? {
      return OneText(Fill(found, values.value));
    }
    var parts := InParts(found, values.value);
    return Parts(parts);
  }
}
