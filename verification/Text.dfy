/** Splitting a rendered SQL template into statements: a pipeline of lines, comments, semicolons and fields
    that knows nothing of quotes. It is written over any alphabet, so that templates, whose symbols are
    characters and field references, can be split by the same functions. */
module Text {

  datatype Class = Newline | Blank | Semicolon | Dash | Other

  predicate IsSpace(k: Class) { k.Newline? || k.Blank? }

  predicate IsVisible(k: Class) { k.Dash? || k.Other? }

  /** The classes of characters: white space is Unicode's. */
  function CharClass(c: char): Class
  {
    if c == '\n' then Newline
    else if c in "\t\r \U{000B}\U{000C}\U{0085}\U{00A0}\U{1680}\U{2028}\U{2029}\U{202F}\U{205F}\U{3000}"
         || '\U{2000}' <= c <= '\U{200A}'
    then Blank
    else if c == ';' then Semicolon
    else if c == '-' then Dash
    else Other
  }

  // ------------------------------------------------- library functions on any alphabet

  /** strings.Split with a separator of one symbol. */
  function SplitOn<T>(kind: T -> Class, sep: Class, s: seq<T>): (parts: seq<seq<T>>)
    ensures |parts| >= 1
  {
    if s == [] then [[]]
    else
      var rest := SplitOn(kind, sep, s[1..]);
      if kind(s[0]) == sep then [[]] + rest else [[s[0]] + rest[0]] + rest[1..]
  }

  function TrimLeft<T>(kind: T -> Class, s: seq<T>): seq<T>
  {
    if s == [] || !IsSpace(kind(s[0])) then s else TrimLeft(kind, s[1..])
  }

  function TrimRight<T>(kind: T -> Class, s: seq<T>): seq<T>
  {
    if s == [] || !IsSpace(kind(s[|s| - 1])) then s else TrimRight(kind, s[..|s| - 1])
  }

  /** strings.TrimSpace. */
  function Trim<T>(kind: T -> Class, s: seq<T>): seq<T>
  {
    TrimRight(kind, TrimLeft(kind, s))
  }

  /** The longest prefix without white space. */
  function Field<T>(kind: T -> Class, s: seq<T>): (w: seq<T>)
    ensures w <= s && forall x | x in w :: !IsSpace(kind(x))
    ensures |w| < |s| ==> IsSpace(kind(s[|w|]))
  {
    if s == [] || IsSpace(kind(s[0])) then [] else [s[0]] + Field(kind, s[1..])
  }

  /** strings.Fields. */
  function Fields<T>(kind: T -> Class, s: seq<T>): seq<seq<T>>
    decreases |s|
  {
    if s == [] then []
    else if IsSpace(kind(s[0])) then Fields(kind, s[1..])
    else
      var w := Field(kind, s);
      assert |w| > 0;
      [w] + Fields(kind, s[|w|..])
  }

  /** strings.Join with a separator of one symbol. */
  function Join<T>(parts: seq<seq<T>>, sep: T): seq<T>
  {
    if parts == [] then []
    else if |parts| == 1 then parts[0]
    else parts[0] + [sep] + Join(parts[1..], sep)
  }

  // ------------------------------------------------- the pipeline

  predicate IsComment<T>(kind: T -> Class, line: seq<T>)
  {
    |line| >= 2 && kind(line[0]).Dash? && kind(line[1]).Dash?
  }

  function CleanLines<T>(kind: T -> Class, lines: seq<seq<T>>): seq<seq<T>>
  {
    if lines == [] then []
    else
      var line := Trim(kind, lines[0]);
      (if line == [] || IsComment(kind, line) then [] else [line]) + CleanLines(kind, lines[1..])
  }

  function Statements<T>(kind: T -> Class, space: T, pieces: seq<seq<T>>): seq<seq<T>>
  {
    if pieces == [] then []
    else
      var stmt := Join(Fields(kind, pieces[0]), space);
      (if stmt == [] then [] else [stmt]) + Statements(kind, space, pieces[1..])
  }

  function Split<T>(kind: T -> Class, newline: T, space: T, s: seq<T>): seq<seq<T>>
  {
    var clean := CleanLines(kind, SplitOn(kind, Newline, s));
    Statements(kind, space, SplitOn(kind, Semicolon, Join(clean, newline)))
  }

  lemma Associates<T>(a: seq<T>, b: seq<T>, c: seq<T>)
    ensures a + (b + c) == a + b + c
  {
  }

  lemma HeadAndTail<T>(w: seq<T>, rest: seq<T>)
    requires w != []
    ensures w + rest == [w[0]] + (w[1..] + rest) && w == [w[0]] + w[1..]
  {
  }

  function Cleaned<T>(kind: T -> Class, line: seq<T>): seq<seq<T>>
  {
    var trimmed := Trim(kind, line);
    if trimmed == [] || IsComment(kind, trimmed) then [] else [trimmed]
  }

  lemma CleanOfCons<T>(kind: T -> Class, line: seq<T>, rest: seq<seq<T>>)
    ensures CleanLines(kind, [line] + rest) == Cleaned(kind, line) + CleanLines(kind, rest)
  {
    assert ([line] + rest)[1..] == rest;
  }

  lemma {:induction false} CleanOneMore<T>(kind: T -> Class, lines: seq<seq<T>>, next: seq<T>)
    ensures CleanLines(kind, lines + [next]) == CleanLines(kind, lines) + Cleaned(kind, next)
    decreases |lines|
  {
    hide Cleaned;
    if lines == [] {
      assert lines + [next] == [next] + [];
      CleanOfCons(kind, next, []);
    } else {
      hide CleanLines;
      CleanOneMore(kind, lines[1..], next);
      HeadAndTail(lines, [next]);
      CleanOfCons(kind, lines[0], lines[1..] + [next]);
      CleanOfCons(kind, lines[0], lines[1..]);
      Associates(Cleaned(kind, lines[0]), CleanLines(kind, lines[1..]), Cleaned(kind, next));
    }
  }

  function Statement<T>(kind: T -> Class, space: T, piece: seq<T>): seq<seq<T>>
  {
    var stmt := Join(Fields(kind, piece), space);
    if stmt == [] then [] else [stmt]
  }

  lemma StatementsOfCons<T>(kind: T -> Class, space: T, piece: seq<T>, rest: seq<seq<T>>)
    ensures Statements(kind, space, [piece] + rest) == Statement(kind, space, piece) + Statements(kind, space, rest)
  {
    assert ([piece] + rest)[1..] == rest;
  }

  lemma {:induction false} OneMoreStatement<T>(kind: T -> Class, space: T, pieces: seq<seq<T>>, next: seq<T>)
    ensures Statements(kind, space, pieces + [next]) == Statements(kind, space, pieces) + Statement(kind, space, next)
    decreases |pieces|
  {
    hide Statement;
    if pieces == [] {
      assert pieces + [next] == [next] + [];
      StatementsOfCons(kind, space, next, []);
    } else {
      hide Statements;
      OneMoreStatement(kind, space, pieces[1..], next);
      HeadAndTail(pieces, [next]);
      StatementsOfCons(kind, space, pieces[0], pieces[1..] + [next]);
      StatementsOfCons(kind, space, pieces[0], pieces[1..]);
      Associates(Statement(kind, space, pieces[0]), Statements(kind, space, pieces[1..]), Statement(kind, space, next));
    }
  }

  /** The two loops over lines and pieces. */
  method SplitSQL(sql: string) returns (statements: seq<string>)
    ensures statements == Split(CharClass, '\n', ' ', sql)
  {
    hide CharClass, Trim, SplitOn, Join, Fields, IsComment;
    var lines := SplitOn(CharClass, Newline, sql);
    var clean: seq<string> := [];
    for i := 0 to |lines|
      invariant clean == CleanLines(CharClass, lines[..i])
    {
      var line := Trim(CharClass, lines[i]);
      CleanOneMore(CharClass, lines[..i], lines[i]);
      assert lines[..i + 1] == lines[..i] + [lines[i]];
      if line == "" || IsComment(CharClass, line) {
        continue;
      }
      clean := clean + [line];
    }
    assert lines[..|lines|] == lines;
    var pieces := SplitOn(CharClass, Semicolon, Join(clean, '\n'));
    statements := [];
    for i := 0 to |pieces|
      invariant statements == Statements(CharClass, ' ', pieces[..i])
    {
      var stmt := Join(Fields(CharClass, pieces[i]), ' ');
      OneMoreStatement(CharClass, ' ', pieces[..i], pieces[i]);
      assert pieces[..i + 1] == pieces[..i] + [pieces[i]];
      if stmt != "" {
        statements := statements + [stmt];
      }
    }
    assert pieces[..|pieces|] == pieces;
  }

  // ------------------------------------------------- what the pipeline means

  datatype Token<T> = Word(text: seq<T>) | End

  /** The longest prefix without white space and semicolons. */
  function WordOf<T>(kind: T -> Class, s: seq<T>): (w: seq<T>)
    ensures w <= s && forall i | 0 <= i < |w| :: IsVisible(kind(w[i]))
    ensures |w| < |s| ==> !IsVisible(kind(s[|w|]))
  {
    if s == [] || !IsVisible(kind(s[0])) then [] else [s[0]] + WordOf(kind, s[1..])
  }

  function Tokens<T>(kind: T -> Class, s: seq<T>): seq<Token<T>>
    decreases |s|
  {
    if s == [] then []
    else if IsSpace(kind(s[0])) then Tokens(kind, s[1..])
    else if kind(s[0]).Semicolon? then [End] + Tokens(kind, s[1..])
    else
      var w := WordOf(kind, s);
      assert |w| > 0;
      [Word(w)] + Tokens(kind, s[|w|..])
  }

  function Emit<T>(words: seq<seq<T>>, space: T): seq<seq<T>>
  {
    if words == [] then [] else [Join(words, space)]
  }

  /** Words up to each semicolon, joined with single blanks; an empty statement is none. */
  function Assemble<T>(pending: seq<seq<T>>, tokens: seq<Token<T>>, space: T): seq<seq<T>>
    decreases tokens
  {
    if tokens == [] then Emit(pending, space)
    else
      match tokens[0]
      case Word(w) => Assemble(pending + [w], tokens[1..], space)
      case End => Emit(pending, space) + Assemble([], tokens[1..], space)
  }

  /** The tokens of all lines but the comments. */
  function Code<T>(kind: T -> Class, lines: seq<seq<T>>): seq<Token<T>>
  {
    if lines == [] then []
    else (if IsComment(kind, TrimLeft(kind, lines[0])) then [] else Tokens(kind, lines[0])) + Code(kind, lines[1..])
  }

  predicate Clear<T>(kind: T -> Class, sep: Class, s: seq<T>)
  {
    forall i | 0 <= i < |s| :: kind(s[i]) != sep
  }

  lemma SplitOnCons<T>(kind: T -> Class, sep: Class, x: T, s: seq<T>)
    ensures var rest := SplitOn(kind, sep, s);
      SplitOn(kind, sep, [x] + s) == if kind(x) == sep then [[]] + rest else [[x] + rest[0]] + rest[1..]
  {
    assert ([x] + s)[1..] == s;
  }

  lemma {:induction false} SplitOnPrefix<T>(kind: T -> Class, sep: Class, w: seq<T>, rest: seq<T>)
    requires Clear(kind, sep, w)
    ensures var parts := SplitOn(kind, sep, rest);
      SplitOn(kind, sep, w + rest) == [w + parts[0]] + parts[1..]
    decreases |w|
  {
    hide SplitOn;
    var parts := SplitOn(kind, sep, rest);
    if w == [] {
      assert w + rest == rest && w + parts[0] == parts[0] && [parts[0]] + parts[1..] == parts;
    } else {
      SplitOnPrefix(kind, sep, w[1..], rest);
      HeadAndTail(w, rest);
      SplitOnCons(kind, sep, w[0], w[1..] + rest);
      HeadAndTail(w, parts[0]);
      var tail := [w[1..] + parts[0]] + parts[1..];
      assert tail[0] == w[1..] + parts[0] && tail[1..] == parts[1..];
    }
  }

  lemma JoinOfCons<T>(part: seq<T>, rest: seq<seq<T>>, c: T, x: T)
    requires rest != []
    ensures Join([part] + rest, x) == part + [x] + Join(rest, x)
    ensures Join([[c] + rest[0]] + rest[1..], x) == [c] + Join(rest, x)
  {
    assert ([part] + rest)[1..] == rest && ([[c] + rest[0]] + rest[1..])[1..] == rest[1..];
    if |rest| > 1 {
      Associates([c], rest[0], [x]);
      Associates([c], rest[0] + [x], Join(rest[1..], x));
    }
  }

  /** Splitting takes out the separators and nothing else. */
  lemma {:induction false} SplitOnIsExact<T>(kind: T -> Class, sep: Class, x: T, s: seq<T>)
    requires kind(x) == sep && forall i | 0 <= i < |s| && kind(s[i]) == sep :: s[i] == x
    ensures Join(SplitOn(kind, sep, s), x) == s
    ensures forall i | 0 <= i < |SplitOn(kind, sep, s)| :: Clear(kind, sep, SplitOn(kind, sep, s)[i])
  {
    hide Join, SplitOn;
    if s == [] {
      SplitOnNothing(kind, sep);
      JoinOfOne<T>([], x);
    } else {
      var rest := SplitOn(kind, sep, s[1..]);
      assert [s[0]] + s[1..] == s;
      SplitOnIsExact(kind, sep, x, s[1..]);
      SplitOnCons(kind, sep, s[0], s[1..]);
      JoinOfCons([], rest, s[0], x);
      assert [] + [x] == [x];
    }
  }

  lemma JoinOfOne<T>(part: seq<T>, x: T)
    ensures Join([part], x) == part
  {
  }

  /** A line is a comment when it begins with two dashes, after any white space. */
  lemma CommentsBeginWithDashes(line: string)
    ensures IsComment(CharClass, line) <==> "--" <= line
  {
    hide TrimLeft;
  }

  lemma {:induction false} TrimLeftIsExact<T>(kind: T -> Class, s: seq<T>) returns (k: nat)
    ensures k <= |s| && TrimLeft(kind, s) == s[k..] && (forall i | 0 <= i < k :: IsSpace(kind(s[i])))
    ensures k < |s| ==> !IsSpace(kind(s[k]))
  {
    if s == [] || !IsSpace(kind(s[0])) {
      k := 0;
    } else {
      var k' := TrimLeftIsExact(kind, s[1..]);
      k := k' + 1;
    }
  }

  lemma FieldOfCons<T>(kind: T -> Class, x: T, s: seq<T>)
    ensures Field(kind, [x] + s) == if IsSpace(kind(x)) then [] else [x] + Field(kind, s)
  {
    assert ([x] + s)[1..] == s;
  }

  lemma {:induction false} FieldOfPrefix<T>(kind: T -> Class, w: seq<T>, rest: seq<T>)
    requires forall i | 0 <= i < |w| :: !IsSpace(kind(w[i]))
    requires rest == [] || IsSpace(kind(rest[0]))
    ensures Field(kind, w + rest) == w
    decreases |w|
  {
    if w == [] {
      assert w + rest == rest;
    } else {
      hide Field;
      FieldOfPrefix(kind, w[1..], rest);
      FieldOfCons(kind, w[0], w[1..] + rest);
      HeadAndTail(w, rest);
    }
  }

  lemma FieldOfWord<T>(kind: T -> Class, w: seq<T>, rest: seq<T>)
    requires w != [] && forall i | 0 <= i < |w| :: !IsSpace(kind(w[i]))
    requires rest == [] || IsSpace(kind(rest[0]))
    ensures Fields(kind, w + rest) == [w] + Fields(kind, rest)
  {
    hide Field;
    FieldOfPrefix(kind, w, rest);
    assert (w + rest)[0] == w[0] && (w + rest)[|w|..] == rest;
  }

  lemma WordsAreNotEmpty<T>(words: seq<seq<T>>, space: T)
    requires forall i | 0 <= i < |words| :: words[i] != []
    ensures Join(words, space) == [] <==> words == []
  {
  }

  lemma {:induction false} FieldsAreWords<T>(kind: T -> Class, s: seq<T>)
    ensures forall i | 0 <= i < |Fields(kind, s)| :: Fields(kind, s)[i] != []
    decreases |s|
  {
    if s != [] && IsSpace(kind(s[0])) {
      FieldsAreWords(kind, s[1..]);
    } else if s != [] {
      FieldsAreWords(kind, s[|Field(kind, s)|..]);
    }
  }

  /** What assembling the tokens of a text amounts to, given its pieces. */
  function Pieced<T>(kind: T -> Class, space: T, pending: seq<seq<T>>, parts: seq<seq<T>>): seq<seq<T>>
    requires |parts| >= 1
  {
    Emit(pending + Fields(kind, parts[0]), space) + Statements(kind, space, parts[1..])
  }

  lemma PiecesAcrossSemicolon<T>(kind: T -> Class, space: T, pending: seq<seq<T>>, parts: seq<seq<T>>)
    requires |parts| >= 1
    ensures Emit(pending, space) + Pieced(kind, space, [], parts) == Pieced(kind, space, pending, [[]] + parts)
  {
    var first := Fields(kind, parts[0]);
    FieldsAreWords(kind, parts[0]);
    WordsAreNotEmpty(first, space);
    assert ([[]] + parts)[1..] == parts && [] + first == first && pending + [] == pending;
  }

  lemma PiecesAcrossWord<T>(kind: T -> Class, space: T, pending: seq<seq<T>>, w: seq<T>, parts: seq<seq<T>>)
    requires w != [] && |parts| >= 1 && (forall i | 0 <= i < |w| :: !IsSpace(kind(w[i])))
    requires parts[0] == [] || IsSpace(kind(parts[0][0]))
    ensures Pieced(kind, space, pending + [w], parts) == Pieced(kind, space, pending, [w + parts[0]] + parts[1..])
  {
    hide Statements, Emit, Fields;
    FieldOfWord(kind, w, parts[0]);
    assert pending + [w] + Fields(kind, parts[0]) == pending + ([w] + Fields(kind, parts[0]));
    assert ([w + parts[0]] + parts[1..])[1..] == parts[1..];
  }

  /** Splitting at semicolons and into fields is assembling tokens. */
  lemma {:induction false} PiecesAssemble<T>(kind: T -> Class, space: T, pending: seq<seq<T>>, s: seq<T>)
    ensures Assemble(pending, Tokens(kind, s), space) == Pieced(kind, space, pending, SplitOn(kind, Semicolon, s))
    decreases |s|
  {
    hide Join, Emit, Statements;
    if s == [] {
      assert pending + [] == pending;
      NoPieces(kind, space, pending);
    } else if IsSpace(kind(s[0])) {
      PiecesAssemble(kind, space, pending, s[1..]);
      var rest := SplitOn(kind, Semicolon, s[1..]);
      assert ([s[0]] + rest[0])[1..] == rest[0];
      assert ([[s[0]] + rest[0]] + rest[1..])[1..] == rest[1..];
    } else if kind(s[0]).Semicolon? {
      PiecesAssemble(kind, space, [], s[1..]);
      PiecesAcrossSemicolon(kind, space, pending, SplitOn(kind, Semicolon, s[1..]));
    } else {
      var w := WordOf(kind, s);
      var after := s[|w|..];
      assert s == w + after;
      PiecesAssemble(kind, space, pending + [w], after);
      SplitOnPrefix(kind, Semicolon, w, after);
      PiecesAcrossWord(kind, space, pending, w, SplitOn(kind, Semicolon, after));
    }
  }

  lemma NoPieces<T>(kind: T -> Class, space: T, pending: seq<seq<T>>)
    ensures Emit(pending, space) == Pieced(kind, space, pending, [[]])
  {
    assert pending + [] == pending;
  }

  lemma WordOfCons<T>(kind: T -> Class, x: T, s: seq<T>)
    ensures WordOf(kind, [x] + s) == if IsVisible(kind(x)) then [x] + WordOf(kind, s) else []
  {
    assert ([x] + s)[1..] == s;
  }

  lemma {:induction false} WordOfStart<T>(kind: T -> Class, w: seq<T>, rest: seq<T>)
    requires forall i | 0 <= i < |w| :: IsVisible(kind(w[i]))
    requires rest == [] || !IsVisible(kind(rest[0]))
    ensures WordOf(kind, w + rest) == w
    decreases |w|
  {
    if w == [] {
      assert w + rest == rest;
    } else {
      hide WordOf;
      WordOfStart(kind, w[1..], rest);
      WordOfCons(kind, w[0], w[1..] + rest);
      HeadAndTail(w, rest);
    }
  }

  lemma WordOfPrefix<T>(kind: T -> Class, w: seq<T>, rest: seq<T>)
    requires w != [] && forall i | 0 <= i < |w| :: IsVisible(kind(w[i]))
    requires rest == [] || !IsVisible(kind(rest[0]))
    ensures Tokens(kind, w + rest) == [Word(w)] + Tokens(kind, rest)
  {
    hide WordOf;
    WordOfStart(kind, w, rest);
    assert (w + rest)[0] == w[0] && (w + rest)[|w|..] == rest;
  }

  lemma TokensAfterGap<T>(kind: T -> Class, x: T, s: seq<T>)
    requires !IsVisible(kind(x))
    ensures Tokens(kind, [x] + s) == if IsSpace(kind(x)) then Tokens(kind, s) else [End] + Tokens(kind, s)
  {
    assert ([x] + s)[1..] == s;
  }

  lemma TokensAfterSpace<T>(kind: T -> Class, x: T, s: seq<T>)
    requires IsSpace(kind(x))
    ensures Tokens(kind, [x] + s) == Tokens(kind, s)
  {
    TokensAfterGap(kind, x, s);
  }

  lemma AcrossGap<T>(kind: T -> Class, g: T, a: seq<T>, rest: seq<T>, b: seq<T>)
    requires !IsVisible(kind(g)) && Tokens(kind, rest) == Tokens(kind, a) + Tokens(kind, b)
    ensures Tokens(kind, [g] + rest) == Tokens(kind, [g] + a) + Tokens(kind, b)
  {
    hide Tokens;
    TokensAfterGap(kind, g, rest);
    TokensAfterGap(kind, g, a);
    Associates([End], Tokens(kind, a), Tokens(kind, b));
  }

  lemma AcrossWord<T>(kind: T -> Class, w: seq<T>, a: seq<T>, rest: seq<T>, b: seq<T>)
    requires w != [] && (forall i | 0 <= i < |w| :: IsVisible(kind(w[i]))) && (a == [] || !IsVisible(kind(a[0])))
    requires (rest == [] || !IsVisible(kind(rest[0]))) && Tokens(kind, rest) == Tokens(kind, a) + Tokens(kind, b)
    ensures Tokens(kind, w + rest) == Tokens(kind, w + a) + Tokens(kind, b)
  {
    hide Tokens;
    WordOfPrefix(kind, w, rest);
    WordOfPrefix(kind, w, a);
    Associates([Word(w)], Tokens(kind, a), Tokens(kind, b));
  }

  lemma Regroup<T>(a: seq<T>, k: nat, x: T, b: seq<T>)
    requires k <= |a|
    ensures a + [x] + b == a[..k] + (a[k..] + [x] + b) && a == a[..k] + a[k..]
    ensures (a[k..] + [x] + b)[0] == if k == |a| then x else a[k]
  {
  }

  /** White space separates tokens and is nothing else. */
  lemma {:induction false} TokensAcrossSpace<T>(kind: T -> Class, a: seq<T>, x: T, b: seq<T>)
    requires IsSpace(kind(x))
    ensures Tokens(kind, a + [x] + b) == Tokens(kind, a) + Tokens(kind, b)
    decreases |a|
  {
    if a == [] {
      assert a + [x] + b == [x] + b;
      TokensAfterSpace(kind, x, b);
    } else {
      hide Tokens;
      var k := if IsVisible(kind(a[0])) then |WordOf(kind, a)| else 1;
      Regroup(a, k, x, b);
      TokensAcrossSpace(kind, a[k..], x, b);
      if IsVisible(kind(a[0])) {
        AcrossWord(kind, a[..k], a[k..], a[k..] + [x] + b, b);
      } else {
        assert a[..1] == [a[0]];
        AcrossGap(kind, a[0], a[1..], a[1..] + [x] + b, b);
      }
    }
  }

  lemma {:induction false} TrimKeepsTokens<T>(kind: T -> Class, s: seq<T>)
    ensures Tokens(kind, TrimLeft(kind, s)) == Tokens(kind, s)
  {
    if s != [] && IsSpace(kind(s[0])) {
      TrimKeepsTokens(kind, s[1..]);
    }
  }

  lemma {:induction false} TrimRightKeepsTokens<T>(kind: T -> Class, s: seq<T>)
    ensures Tokens(kind, TrimRight(kind, s)) == Tokens(kind, s)
    ensures TrimRight(kind, s) <= s && (TrimRight(kind, s) != s ==> IsSpace(kind(s[|TrimRight(kind, s)|])))
  {
    if s != [] && IsSpace(kind(s[|s| - 1])) {
      TrimRightKeepsTokens(kind, s[..|s| - 1]);
      TokensAcrossSpace(kind, s[..|s| - 1], s[|s| - 1], []);
      assert s[..|s| - 1] + [s[|s| - 1]] + [] == s;
    }
  }

  /** A line is a comment after trimming exactly when it is one after trimming its left end. */
  lemma TrimKeepsComment<T>(kind: T -> Class, line: seq<T>)
    ensures IsComment(kind, Trim(kind, line)) <==> IsComment(kind, TrimLeft(kind, line))
    ensures Tokens(kind, Trim(kind, line)) == Tokens(kind, line)
  {
    TrimKeepsTokens(kind, line);
    TrimRightKeepsTokens(kind, TrimLeft(kind, line));
  }

  lemma {:induction false} JoinedTokens<T>(kind: T -> Class, lines: seq<seq<T>>, newline: T)
    requires IsSpace(kind(newline))
    ensures Tokens(kind, Join(CleanLines(kind, lines), newline)) == Code(kind, lines)
  {
    if lines != [] {
      var line, rest := Trim(kind, lines[0]), CleanLines(kind, lines[1..]);
      JoinedTokens(kind, lines[1..], newline);
      TrimKeepsComment(kind, lines[0]);
      if line == [] || IsComment(kind, line) {
        assert CleanLines(kind, lines) == rest;
      } else if rest != [] {
        assert CleanLines(kind, lines) == [line] + rest;
        assert ([line] + rest)[1..] == rest;
        TokensAcrossSpace(kind, line, newline, Join(rest, newline));
      } else {
        assert CleanLines(kind, lines) == [line];
      }
    }
  }

  /** The pipeline assembles the words between semicolons of every line that is not a comment. */
  lemma SplitIsAssembly<T>(kind: T -> Class, newline: T, space: T, s: seq<T>)
    requires IsSpace(kind(newline))
    ensures Split(kind, newline, space, s) == Assemble([], Code(kind, SplitOn(kind, Newline, s)), space)
  {
    var lines := SplitOn(kind, Newline, s);
    var joined := Join(CleanLines(kind, lines), newline);
    var pieces := SplitOn(kind, Semicolon, joined);
    JoinedTokens(kind, lines, newline);
    PiecesAssemble(kind, space, [], joined);
    assert [] + Fields(kind, pieces[0]) == Fields(kind, pieces[0]) && pieces == [pieces[0]] + pieces[1..];
    FieldsAreWords(kind, pieces[0]);
    WordsAreNotEmpty(Fields(kind, pieces[0]), space);
  }

  // ------------------------------------------------- comments

  lemma CodeOfCons<T>(kind: T -> Class, line: seq<T>, rest: seq<seq<T>>)
    ensures Code(kind, [line] + rest) ==
      (if IsComment(kind, TrimLeft(kind, line)) then [] else Tokens(kind, line)) + Code(kind, rest)
  {
    assert ([line] + rest)[1..] == rest;
  }

  lemma {:induction false} CodeOfConcat<T>(kind: T -> Class, a: seq<seq<T>>, b: seq<seq<T>>)
    ensures Code(kind, a + b) == Code(kind, a) + Code(kind, b)
    decreases |a|
  {
    if a == [] {
      assert a + b == b;
    } else {
      hide Code;
      CodeOfConcat(kind, a[1..], b);
      HeadAndTail(a, b);
      CodeOfCons(kind, a[0], a[1..] + b);
      CodeOfCons(kind, a[0], a[1..]);
      Associates(if IsComment(kind, TrimLeft(kind, a[0])) then []
          else Tokens(kind, a[0]), Code(kind, a[1..]), Code(kind, b));
    }
  }

  /** A separator between two texts splits them for good. */
  lemma {:induction false} SplitOnConcat<T>(kind: T -> Class, sep: Class, a: seq<T>, x: T, b: seq<T>)
    requires kind(x) == sep
    ensures SplitOn(kind, sep, a + [x] + b) == SplitOn(kind, sep, a) + SplitOn(kind, sep, b)
    decreases |a|
  {
    hide SplitOn;
    var second := SplitOn(kind, sep, b);
    if a == [] {
      assert a + [x] + b == [x] + b;
      SplitOnCons(kind, sep, x, b);
      SplitOnNothing(kind, sep);
    } else {
      var first := SplitOn(kind, sep, a[1..]);
      SplitOnConcat(kind, sep, a[1..], x, b);
      assert a + [x] + b == [a[0]] + (a[1..] + [x] + b) && a == [a[0]] + a[1..];
      SplitOnCons(kind, sep, a[0], a[1..] + [x] + b);
      SplitOnCons(kind, sep, a[0], a[1..]);
      SplitAssociates(a[0], first, second);
    }
  }

  lemma SplitOnNothing<T>(kind: T -> Class, sep: Class)
    ensures SplitOn(kind, sep, []) == [[]]
  {
  }

  lemma SplitAssociates<T>(x: T, first: seq<seq<T>>, second: seq<seq<T>>)
    requires |first| >= 1
    ensures [[]] + (first + second) == [[]] + first + second
    ensures [[x] + (first + second)[0]] + (first + second)[1..] == [[x] + first[0]] + first[1..] + second
  {
    assert (first + second)[1..] == first[1..] + second;
  }

  lemma OneLine<T>(kind: T -> Class, line: seq<T>)
    requires Clear(kind, Newline, line)
    ensures SplitOn(kind, Newline, line) == [line]
  {
    SplitOnPrefix(kind, Newline, line, []);
    assert line + [] == line;
  }

  /** A comment line contributes nothing, whatever it contains: text without it splits into the same statements. */
  lemma CommentsDoNotMatter<T>(kind: T -> Class, newline: T, space: T, before: seq<T>, comment: seq<T>, after: seq<T>)
    requires kind(newline) == Newline && Clear(kind, Newline, comment) && IsComment(kind, TrimLeft(kind, comment))
    ensures Split(kind, newline, space, before + [newline] + (comment + [newline] + after))
         == Split(kind, newline, space, before + [newline] + after)
  {
    hide Split, Tokens;
    SplitIsAssembly(kind, newline, space, before + [newline] + (comment + [newline] + after));
    SplitIsAssembly(kind, newline, space, before + [newline] + after);
    SplitOnConcat(kind, Newline, before, newline, comment + [newline] + after);
    SplitOnConcat(kind, Newline, comment, newline, after);
    SplitOnConcat(kind, Newline, before, newline, after);
    OneLine(kind, comment);
    var a, b := SplitOn(kind, Newline, before), SplitOn(kind, Newline, after);
    CodeOfConcat(kind, a, [comment] + b);
    CodeOfConcat(kind, a, b);
    CodeOfCons(kind, comment, b);
    assert [] + Code(kind, b) == Code(kind, b);
  }

  // ------------------------------------------------- normal form

  predicate Visible<T>(kind: T -> Class, s: seq<T>)
  {
    forall i | 0 <= i < |s| :: IsVisible(kind(s[i]))
  }

  predicate AllWords<T>(kind: T -> Class, words: seq<seq<T>>)
  {
    forall i | 0 <= i < |words| :: words[i] != [] && Visible(kind, words[i])
  }

  predicate Legible<T>(kind: T -> Class, tokens: seq<Token<T>>)
  {
    forall i | 0 <= i < |tokens| :: tokens[i].Word? ==> tokens[i].text != [] && Visible(kind, tokens[i].text)
  }

  /** Not empty, no semicolon, white space only as single blanks between visible symbols. */
  ghost predicate Normal<T>(kind: T -> Class, space: T, stmt: seq<T>)
  {
    && stmt != []
    && forall i | 0 <= i < |stmt| :: IsVisible(kind(stmt[i]))
         || (stmt[i] == space && 0 < i < |stmt| - 1 && IsVisible(kind(stmt[i - 1])) && IsVisible(kind(stmt[i + 1])))
  }

  lemma {:induction false} JoinIsNormal<T>(kind: T -> Class, space: T, words: seq<seq<T>>)
    requires AllWords(kind, words) && words != []
    ensures Normal(kind, space, Join(words, space)) && IsVisible(kind(Join(words, space)[0]))
  {
    if |words| > 1 {
      assert AllWords(kind, words[1..]);
      JoinIsNormal(kind, space, words[1..]);
      var w, rest := words[0], Join(words[1..], space);
      var stmt := w + [space] + rest;
      forall i | 0 <= i < |stmt| ensures IsVisible(kind(stmt[i]))
        || (stmt[i] == space && 0 < i < |stmt| - 1 && IsVisible(kind(stmt[i - 1])) && IsVisible(kind(stmt[i + 1])))
      {
        if i > |w| {
          assert stmt[i] == rest[i - |w| - 1] && (i + 1 < |stmt| ==> stmt[i + 1] == rest[i - |w|]);
        }
      }
    }
  }

  lemma {:induction false} TokensAreLegible<T>(kind: T -> Class, s: seq<T>)
    ensures Legible(kind, Tokens(kind, s))
    decreases |s|
  {
    if s != [] && IsVisible(kind(s[0])) {
      TokensAreLegible(kind, s[|WordOf(kind, s)|..]);
    } else if s != [] {
      TokensAreLegible(kind, s[1..]);
    }
  }

  lemma {:induction false} CodeIsLegible<T>(kind: T -> Class, lines: seq<seq<T>>)
    ensures Legible(kind, Code(kind, lines))
  {
    if lines != [] {
      TokensAreLegible(kind, lines[0]);
      CodeIsLegible(kind, lines[1..]);
    }
  }

  /** Statements with the words they are made of. */
  ghost predicate MadeOf<T>(kind: T -> Class, space: T, stmts: seq<seq<T>>, words: seq<seq<seq<T>>>)
  {
    |words| == |stmts|
    && forall i | 0 <= i < |stmts| :: words[i] != [] && AllWords(kind, words[i]) && stmts[i] == Join(words[i], space)
  }

  lemma {:induction false} AssembleIsMadeOf<T>(kind: T -> Class, space: T, pending: seq<seq<T>>, tokens: seq<Token<T>>)
      returns (words: seq<seq<seq<T>>>)
    requires AllWords(kind, pending) && Legible(kind, tokens)
    ensures MadeOf(kind, space, Assemble(pending, tokens, space), words)
    decreases tokens
  {
    if tokens == [] {
      words := if pending == [] then [] else [pending];
    } else {
      assert Legible(kind, tokens[1..]);
      match tokens[0]
      case Word(w) =>
        words := AssembleIsMadeOf(kind, space, pending + [w], tokens[1..]);
      case End =>
        words := AssembleIsMadeOf(kind, space, [], tokens[1..]);
        words := (if pending == [] then [] else [pending]) + words;
    }
  }

  /** Every statement that comes out is in normal form, whatever went in. */
  lemma SplitIsNormal<T>(kind: T -> Class, newline: T, space: T, s: seq<T>)
    requires IsSpace(kind(newline))
    ensures forall i | 0 <= i < |Split(kind, newline, space, s)| ::
      Normal(kind, space, Split(kind, newline, space, s)[i])
  {
    hide Split, Code, Normal;
    SplitIsAssembly(kind, newline, space, s);
    CodeIsLegible(kind, SplitOn(kind, Newline, s));
    var words := AssembleIsMadeOf(kind, space, [], Code(kind, SplitOn(kind, Newline, s)));
    forall i | 0 <= i < |words| ensures Normal(kind, space, Split(kind, newline, space, s)[i]) {
      JoinIsNormal(kind, space, words[i]);
    }
  }

  // ------------------------------------------------- splitting again

  /** The statements written out again, one to a line. */
  function Rejoin<T>(stmts: seq<seq<T>>, semicolon: T, newline: T): seq<T>
  {
    if stmts == [] then [] else stmts[0] + [semicolon] + [newline] + Rejoin(stmts[1..], semicolon, newline)
  }

  function NotComments<T>(kind: T -> Class, stmts: seq<seq<T>>): (kept: seq<seq<T>>)
    ensures |kept| <= |stmts|
    ensures |kept| == |stmts| <==> kept == stmts
    ensures kept == stmts <==> forall i | 0 <= i < |stmts| :: !IsComment(kind, stmts[i])
  {
    if stmts == [] then []
    else
      var rest := NotComments(kind, stmts[1..]);
      assert forall i | 1 <= i < |stmts| :: stmts[i] == stmts[1..][i - 1];
      if IsComment(kind, stmts[0]) then rest else [stmts[0]] + rest
  }

  function AsTokens<T>(words: seq<seq<T>>): seq<Token<T>>
  {
    if words == [] then [] else [Word(words[0])] + AsTokens(words[1..])
  }

  lemma JoinTail<T>(words: seq<seq<T>>, space: T, rest: seq<T>)
    requires |words| > 1
    ensures Join(words, space) + rest == words[0] + ([space] + (Join(words[1..], space) + rest))
  {
  }

  lemma {:induction false} TokensOfJoin<T>(kind: T -> Class, space: T, words: seq<seq<T>>, rest: seq<T>)
    requires AllWords(kind, words) && kind(space) == Blank && words != []
    requires rest == [] || !IsVisible(kind(rest[0]))
    ensures Tokens(kind, Join(words, space) + rest) == AsTokens(words) + Tokens(kind, rest)
    decreases |words|
  {
    hide Tokens;
    if |words| == 1 {
      WordOfPrefix(kind, words[0], rest);
      assert words[1..] == [] && AsTokens(words) == [Word(words[0])];
    } else {
      TokensOfJoin(kind, space, words[1..], rest);
      var tail := Join(words[1..], space) + rest;
      JoinTail(words, space, rest);
      WordOfPrefix(kind, words[0], [space] + tail);
      TokensAfterSpace(kind, space, tail);
      Associates([Word(words[0])], AsTokens(words[1..]), Tokens(kind, rest));
    }
  }

  lemma AssembleWord<T>(pending: seq<seq<T>>, w: seq<T>, rest: seq<Token<T>>, space: T)
    ensures Assemble(pending, [Word(w)] + rest, space) == Assemble(pending + [w], rest, space)
  {
    assert ([Word(w)] + rest)[1..] == rest;
  }

  lemma {:induction false} AssembleWords<T>(pending: seq<seq<T>>, words: seq<seq<T>>, rest: seq<Token<T>>, space: T)
    ensures Assemble(pending, AsTokens(words) + rest, space) == Assemble(pending + words, rest, space)
    decreases |words|
  {
    hide Assemble;
    if words == [] {
      assert AsTokens(words) + rest == rest && pending + words == pending;
    } else {
      AssembleWords(pending + [words[0]], words[1..], rest, space);
      AssembleWord(pending, words[0], AsTokens(words[1..]) + rest, space);
      assert AsTokens(words) + rest == [Word(words[0])] + (AsTokens(words[1..]) + rest);
      assert pending + words == pending + [words[0]] + words[1..];
    }
  }

  lemma {:induction false} VisibleStartStays<T>(kind: T -> Class, s: seq<T>)
    requires s != [] && IsVisible(kind(s[0]))
    ensures TrimLeft(kind, s) == s
  {
  }

  lemma NormalIsOneLine<T>(kind: T -> Class, space: T, stmt: seq<T>, semicolon: T)
    requires Normal(kind, space, stmt) && kind(space) == Blank && kind(semicolon) == Semicolon
    ensures Clear(kind, Newline, stmt + [semicolon])
    ensures IsComment(kind, stmt + [semicolon]) == IsComment(kind, stmt)
  {
  }

  lemma NothingToSplit<T>(kind: T -> Class)
    ensures Code(kind, SplitOn(kind, Newline, [])) == []
  {
    var empty: seq<T> := [];
    assert SplitOn(kind, Newline, empty) == [[]];
  }

  lemma {:induction false} RejoinedCode<T>(kind: T -> Class, space: T, semicolon: T, newline: T, stmts: seq<seq<T>>,
          words: seq<seq<seq<T>>>)
    requires kind(space) == Blank && kind(semicolon) == Semicolon && kind(newline) == Newline
    requires MadeOf(kind, space, stmts, words)
    ensures Assemble([], Code(kind, SplitOn(kind, Newline, Rejoin(stmts, semicolon, newline))), space) ==
      NotComments(kind, stmts)
    decreases stmts
  {
    hide Tokens, Code, TrimLeft, SplitOn, Join;
    var text := Rejoin(stmts, semicolon, newline);
    if stmts == [] {
      NothingToSplit(kind);
    } else {
      var line, rest := stmts[0] + [semicolon], Rejoin(stmts[1..], semicolon, newline);
      assert MadeOf(kind, space, stmts[1..], words[1..]);
      RejoinedCode(kind, space, semicolon, newline, stmts[1..], words[1..]);
      JoinIsNormal(kind, space, words[0]);
      NormalIsOneLine(kind, space, stmts[0], semicolon);
      VisibleStartStays(kind, line);
      OneLine(kind, line);
      assert text == line + [newline] + rest;
      SplitOnConcat(kind, Newline, line, newline, rest);
      var lines := SplitOn(kind, Newline, rest);
      CodeOfCons(kind, line, lines);
      LineOfStatement(kind, space, semicolon, words[0], Code(kind, lines));
      assert [] + Code(kind, lines) == Code(kind, lines);
    }
  }

  lemma SemicolonIsEnd<T>(kind: T -> Class, semicolon: T)
    requires kind(semicolon) == Semicolon
    ensures Tokens(kind, [semicolon]) == [End]
  {
    assert [semicolon][1..] == [];
  }

  lemma AssembleEnd<T>(pending: seq<seq<T>>, rest: seq<Token<T>>, space: T)
    ensures Assemble(pending, [End] + rest, space) == Emit(pending, space) + Assemble([], rest, space)
  {
    assert ([End] + rest)[1..] == rest;
  }

  /** One written-out statement reads as that statement. */
  lemma LineOfStatement<T>(kind: T -> Class, space: T, semicolon: T, words: seq<seq<T>>, rest: seq<Token<T>>)
    requires AllWords(kind, words) && words != [] && kind(space) == Blank && kind(semicolon) == Semicolon
    ensures Assemble([], Tokens(kind, Join(words, space) + [semicolon]) + rest, space) ==
      [Join(words, space)] + Assemble([], rest, space)
  {
    hide Tokens, Assemble, Join, AsTokens, AllWords;
    TokensOfJoin(kind, space, words, [semicolon]);
    SemicolonIsEnd(kind, semicolon);
    AssembleWords([], words, [End] + rest, space);
    AssembleEnd(words, rest, space);
    assert AsTokens(words) + [End] + rest == AsTokens(words) + ([End] + rest) && [] + words == words;
  }

  /** Written out one to a line and split again, exactly the statements that begin with two dashes get lost; so the
      list comes back if and only if none of them does. */
  lemma SplittingAgain<T>(kind: T -> Class, newline: T, space: T, semicolon: T, s: seq<T>)
    requires kind(space) == Blank && kind(semicolon) == Semicolon && kind(newline) == Newline
    ensures var stmts := Split(kind, newline, space, s);
      var again := Split(kind, newline, space, Rejoin(stmts, semicolon, newline));
      && again == NotComments(kind, stmts)
      && (again == stmts <==> forall i | 0 <= i < |stmts| :: !IsComment(kind, stmts[i]))
  {
    hide Split, Code;
    var tokens := Code(kind, SplitOn(kind, Newline, s));
    SplitIsAssembly(kind, newline, space, s);
    CodeIsLegible(kind, SplitOn(kind, Newline, s));
    var words := AssembleIsMadeOf(kind, space, [], tokens);
    var stmts := Split(kind, newline, space, s);
    SplitIsAssembly(kind, newline, space, Rejoin(stmts, semicolon, newline));
    RejoinedCode(kind, space, semicolon, newline, stmts, words);
  }
}
