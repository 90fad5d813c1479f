/** The embedded template files, and the values spliced into them: the statements a rendered file splits into are
    exactly the statements of the modelled batches. */
module SqlFiles {
  import opened Names
  import opened Text
  import opened Templates
  import Decimal
  import Params
  import S = Sql
  import State
  import T = Tenancy

  // ------------------------------------------------- template files by lines

  predicate IsKeyChar(c: char)
  {
    'A' <= c <= 'Z' || 'a' <= c <= 'z' || c == '_' || c == ',' || c == '(' || c == ')' || c == '=' || c == '0'
  }

  /** The fixed words of the files. */
  type Keyword = t: string | t != [] && forall i | 0 <= i < |t| :: IsKeyChar(t[i]) witness "A"

  /** The text of a comment is on one line. */
  type Comment = t: string | forall i | 0 <= i < |t| :: t[i] != '\n'

  datatype Word<F> = Plain(text: Keyword) | Field(f: F)

  /** A line is empty, a comment, or code: words between single blanks, with or without a semicolon at its end. */
  datatype Line<F> = Empty | Remark(text: Comment) | Code(indent: nat, words: seq<Word<F>>, ends: bool)

  function Chars<F>(s: string): (symbols: seq<Symbol<F>>)
    ensures |symbols| == |s| && forall i | 0 <= i < |s| :: symbols[i] == Ch(s[i])
  {
    if s == [] then [] else [Ch(s[0])] + Chars(s[1..])
  }

  function WordText<F>(w: Word<F>): seq<Symbol<F>>
  {
    match w case Plain(t) => Chars(t) case Field(f) => [Ref(f)]
  }

  function WordTexts<F>(words: seq<Word<F>>): (texts: seq<seq<Symbol<F>>>)
    ensures |texts| == |words| && forall i | 0 <= i < |words| :: texts[i] == WordText(words[i])
  {
    if words == [] then [] else [WordText(words[0])] + WordTexts(words[1..])
  }

  function Spaces<F>(n: nat): (s: seq<Symbol<F>>)
    ensures |s| == n && forall i | 0 <= i < n :: s[i] == Ch(' ')
  {
    if n == 0 then [] else [Ch(' ')] + Spaces(n - 1)
  }

  function LineText<F>(line: Line<F>): seq<Symbol<F>>
  {
    match line
    case Empty => []
    case Remark(text) => Chars("-- " + text)
    case Code(indent, words, ends) => Spaces(indent) + Join(WordTexts(words), Ch(' ')) + if ends then [Ch(';')] else []
  }

  function FileText<F>(lines: seq<Line<F>>): seq<Symbol<F>>
  {
    if lines == [] then [] else LineText(lines[0]) + [Ch('\n')] + FileText(lines[1..])
  }

  predicate WellFormed<F>(line: Line<F>)
  {
    line.Code? ==> line.words != []
  }

  lemma KeywordsAreVisible(t: Keyword)
    ensures t[0] != '-' && forall i | 0 <= i < |t| :: IsVisible(CharClass(t[i]))
  {
  }

  /** The statements of a file, as lists of words. */
  function Grouped<F>(pending: seq<Word<F>>, lines: seq<Line<F>>): seq<seq<Word<F>>>
    decreases lines
  {
    if lines == [] then if pending == [] then [] else [pending]
    else
      match lines[0]
      case Empty => Grouped(pending, lines[1..])
      case Remark(_) => Grouped(pending, lines[1..])
      case Code(_, words, ends) =>
        if ends then [pending + words] + Grouped([], lines[1..]) else Grouped(pending + words, lines[1..])
  }

  function Joined<F>(groups: seq<seq<Word<F>>>): seq<seq<Symbol<F>>>
  {
    if groups == [] then [] else [Join(WordTexts(groups[0]), Ch(' '))] + Joined(groups[1..])
  }

  lemma WordsAreVisible<F>(kind: Symbol<F> -> Class, words: seq<Word<F>>)
    requires forall x :: kind(x) == SymbolClass(x)
    ensures AllWords(kind, WordTexts(words))
    ensures words != [] ==> !kind(WordTexts(words)[0][0]).Dash?
  {
    DashIsDash();
    hide CharClass;
    forall i | 0 <= i < |words| && words[i].Plain?
      ensures words[i].text[0] != '-' && forall j | 0 <= j < |words[i].text| :: IsVisible(CharClass(words[i].text[j]))
    {
      KeywordsAreVisible(words[i].text);
    }
  }

  lemma {:induction false} SpacesVanish<F>(kind: Symbol<F> -> Class, n: nat, rest: seq<Symbol<F>>)
    requires forall x :: kind(x) == SymbolClass(x)
    ensures Tokens(kind, Spaces<F>(n) + rest) == Tokens(kind, rest)
    ensures TrimLeft(kind, Spaces<F>(n) + rest) == TrimLeft(kind, rest)
  {
    NewlineIsNewline<F>();
    hide CharClass, Tokens;
    if n == 0 {
      assert Spaces<F>(0) + rest == rest;
    } else {
      SpacesVanish(kind, n - 1, rest);
      assert Spaces<F>(n) + rest == [Ch(' ')] + (Spaces<F>(n - 1) + rest);
      TokensAfterSpace(kind, Ch(' '), Spaces<F>(n - 1) + rest);
      assert ([Ch(' ')] + (Spaces<F>(n - 1) + rest))[1..] == Spaces<F>(n - 1) + rest;
    }
  }

  lemma CodeLineTokens<F>(kind: Symbol<F> -> Class, line: Line<F>)
    requires line.Code? && WellFormed(line) && forall x :: kind(x) == SymbolClass(x)
    ensures Tokens(kind, LineText(line)) == AsTokens(WordTexts(line.words)) + if line.ends then [End] else []
    ensures !IsComment(kind, TrimLeft(kind, LineText(line)))
  {
    hide CharClass;
    NewlineIsNewline<F>();
    DashIsDash();
    WordsAreVisible(kind, line.words);
    var texts := WordTexts(line.words);
    var joined := Join(texts, Ch(' '));
    var tail: seq<Symbol<F>> := if line.ends then [Ch(';')] else [];
    assert LineText(line) == Spaces<F>(line.indent) + (joined + tail);
    SpacesVanish(kind, line.indent, joined + tail);
    TokensOfJoin(kind, Ch(' '), texts, tail);
    JoinIsNormal(kind, Ch(' '), texts);
    VisibleStartStays(kind, joined + tail);
    assert texts[0][0] == joined[0] && texts[0] == WordText(line.words[0]);
    assert !kind((joined + tail)[0]).Dash?;
  }

  lemma LineIsOneLine<F>(kind: Symbol<F> -> Class, line: Line<F>)
    requires WellFormed(line) && forall x :: kind(x) == SymbolClass(x)
    ensures Clear(kind, Newline, LineText(line))
    ensures line.Remark? ==> IsComment(kind, TrimLeft(kind, LineText(line)))
  {
    NewlineIsNewline<F>();
    DashIsDash();
    OnlyNewline();
    hide CharClass;
    if line.Code? {
      WordsAreVisible(kind, line.words);
      JoinIsNormal(kind, Ch(' '), WordTexts(line.words));
    } else if line.Remark? {
      VisibleStartStays(kind, LineText(line));
    }
  }

  lemma OnlyNewline()
    ensures forall c: char :: CharClass(c) == Newline <==> c == '\n'
  {
  }

  lemma {:induction false} FileCode<F>(kind: Symbol<F> -> Class, pending: seq<Word<F>>, lines: seq<Line<F>>)
    requires (forall i | 0 <= i < |lines| :: WellFormed(lines[i])) && forall x :: kind(x) == SymbolClass(x)
    ensures Assemble(WordTexts(pending), Text.Code(kind, SplitOn(kind, Newline, FileText(lines))), Ch(' ')) ==
      Joined(Grouped(pending, lines))
    decreases lines
  {
    hide CharClass, LineText;
    if lines == [] {
      NothingToSplit(kind);
      assert Joined([pending])[1..] == [];
    } else {
      var line, rest := lines[0], FileText(lines[1..]);
      NewlineIsNewline<F>();
      LineIsOneLine(kind, line);
      OneLine(kind, LineText(line));
      SplitOnConcat(kind, Newline, LineText(line), Ch('\n'), rest);
      var after := Text.Code(kind, SplitOn(kind, Newline, rest));
      CodeOfCons(kind, LineText(line), SplitOn(kind, Newline, rest));
      match line
      case Empty =>
        FileCode(kind, pending, lines[1..]);
        EmptyLine(kind);
        assert [] + after == after;
      case Remark(_) =>
        FileCode(kind, pending, lines[1..]);
        assert [] + after == after;
      case Code(_, words, ends) =>
        CodeLineTokens(kind, line);
        FileCodeLine(kind, pending, line, after);
        FileCode(kind, if ends then [] else pending + words, lines[1..]);
    }
  }

  lemma EmptyLine<F>(kind: Symbol<F> -> Class)
    ensures Tokens(kind, LineText(Line<F>.Empty)) == []
  {
  }

  lemma FileCodeLine<F>(kind: Symbol<F> -> Class, pending: seq<Word<F>>, line: Line<F>, after: seq<Token<Symbol<F>>>)
    requires line.Code? && WellFormed(line)
    ensures var tokens := AsTokens(WordTexts(line.words)) + if line.ends then [End] else [];
      Assemble(WordTexts(pending), tokens + after, Ch(' ')) ==
      if line.ends then [Join(WordTexts(pending + line.words), Ch(' '))] + Assemble([], after, Ch(' '))
      else Assemble(WordTexts(pending + line.words), after, Ch(' '))
  {
    hide CharClass;
    var words := AsTokens(WordTexts(line.words));
    assert WordTexts(pending) + WordTexts(line.words) == WordTexts(pending + line.words);
    if line.ends {
      assert words + [End] + after == words + ([End] + after) && ([End] + after)[1..] == after;
      AssembleWords(WordTexts(pending), WordTexts(line.words), [End] + after, Ch(' '));
    } else {
      assert words + [] + after == words + after;
      AssembleWords(WordTexts(pending), WordTexts(line.words), after, Ch(' '));
    }
  }

  /** Splitting a well-formed file gives its words, grouped up to each semicolon; its comments are gone. */
  lemma FileSplits<F>(lines: seq<Line<F>>)
    requires forall i | 0 <= i < |lines| :: WellFormed(lines[i])
    ensures SplitTemplate(FileText(lines)) == Joined(Grouped([], lines))
  {
    hide CharClass, WellFormed;
    var kind := x => SymbolClass<F>(x);
    NewlineIsNewline<F>();
    SplitIsAssembly(kind, Ch('\n'), Ch(' '), FileText(lines));
    FileCode(kind, [], lines);
  }

  // ------------------------------------------------- rendering words

  function Shown<F>(w: Word<F>, value: F -> string): string
  {
    match w case Plain(t) => t case Field(f) => value(f)
  }

  function ShownWords<F>(words: seq<Word<F>>, value: F -> string): (shown: seq<string>)
    ensures |shown| == |words| && forall i | 0 <= i < |words| :: shown[i] == Shown(words[i], value)
  {
    if words == [] then [] else [Shown(words[0], value)] + ShownWords(words[1..], value)
  }

  function ShownGroups<F>(groups: seq<seq<Word<F>>>, value: F -> string): seq<string>
  {
    if groups == [] then [] else [Join(ShownWords(groups[0], value), ' ')] + ShownGroups(groups[1..], value)
  }

  lemma {:induction false} CharsRender<F>(s: string, value: F -> string)
    ensures Render(Chars<F>(s), value) == s
  {
    if s != [] {
      CharsRender(s[1..], value);
      assert Chars<F>(s)[1..] == Chars<F>(s[1..]);
    }
  }

  lemma {:induction false} WordsRender<F>(words: seq<Word<F>>, value: F -> string)
    ensures RenderAll(WordTexts(words), value) == ShownWords(words, value)
  {
    if words != [] {
      WordsRender(words[1..], value);
      assert WordTexts(words)[1..] == WordTexts(words[1..]);
      if words[0].Plain? {
        CharsRender(words[0].text, value);
      } else {
        var ref: seq<Symbol<F>> := [Ref(words[0].f)];
        assert ref[1..] == [] && WordText(words[0]) == ref;
        assert Render(ref, value) == value(words[0].f) + [] == value(words[0].f);
        assert RenderAll(WordTexts(words), value) == [Render(ref, value)] + RenderAll(WordTexts(words[1..]), value);
      }
    }
  }

  lemma {:induction false} GroupsRender<F>(groups: seq<seq<Word<F>>>, value: F -> string)
    ensures RenderAll(Joined(groups), value) == ShownGroups(groups, value)
  {
    if groups != [] {
      GroupsRender(groups[1..], value);
      assert Joined(groups)[1..] == Joined(groups[1..]);
      JoinRenders(WordTexts(groups[0]), value);
      WordsRender(groups[0], value);
    }
  }

  /** Every reference in the file's code has a value that can be spliced. */
  predicate Filled<F>(lines: seq<Line<F>>, value: F -> string)
  {
    forall i | 0 <= i < |lines| :: lines[i].Code? ==> FilledWords(lines[i].words, value)
  }

  predicate FilledWords<F>(words: seq<Word<F>>, value: F -> string)
  {
    forall i | 0 <= i < |words| :: words[i].Field? ==> Spliceable(value(words[i].f))
  }

  lemma {:induction false} FilledJoinIsFit<F>(words: seq<Word<F>>, value: F -> string)
    requires FilledWords(words, value)
    ensures Fit(Join(WordTexts(words), Ch(' ')), value)
  {
    hide Spliceable;
    if words != [] {
      assert FilledWords(words[1..], value);
      FilledJoinIsFit(words[1..], value);
      assert WordTexts(words)[1..] == WordTexts(words[1..]);
    }
  }

  lemma {:induction false} FilledFileIsFit<F>(lines: seq<Line<F>>, value: F -> string)
    requires Filled(lines, value)
    ensures Fit(FileText(lines), value)
  {
    hide Spliceable;
    if lines != [] {
      assert Filled(lines[1..], value);
      FilledFileIsFit(lines[1..], value);
      if lines[0].Code? {
        FilledJoinIsFit(lines[0].words, value);
      }
    }
  }

  /** What execution sends to the server: the file rendered, then split. */
  lemma FileRenders<F>(lines: seq<Line<F>>, value: F -> string)
    requires (forall i | 0 <= i < |lines| :: WellFormed(lines[i])) && Filled(lines, value)
    ensures SplitText(Render(FileText(lines), value)) == ShownGroups(Grouped([], lines), value)
  {
    hide WellFormed, Filled;
    FilledFileIsFit(lines, value);
    RenderThenSplit(FileText(lines), value);
    FileSplits(lines);
    GroupsRender(Grouped([], lines), value);
  }

  // ------------------------------------------------- the values

  datatype Var =
    | Database | GroupRole | Tablespace | AdminUser | Username
    | Password | GroupPassword | Encoding | Compatibility | StorageQuota | TablePrefix
    | DatabaseLiteral | UsernameLiteral
    | MaxConnections

  type Vars = Var -> string

  function Quota(gb: int): string { Decimal.Of(gb) + "G" }

  /** The prepared values of an operation; the last three parameters are set only by the operations that need them. */
  function BuildVars(c: T.Server, n: Names, p: State.InstanceParams, groupPassword: string, user: string,
          password: string): Vars
  {
    (v: Var) =>
      match v
      case Database => QuoteIdent(n.database)
      case GroupRole => QuoteIdent(n.groupRole)
      case Tablespace => QuoteIdent(n.tablespace)
      case AdminUser => QuoteIdent(c.user)
      case Username => QuoteIdent(user)
      case Password => QuoteLiteral(password)
      case GroupPassword => QuoteLiteral(groupPassword)
      case Encoding => QuoteLiteral(p.encoding)
      case Compatibility => QuoteLiteral(p.compatibility)
      case StorageQuota => QuoteLiteral(Quota(p.storageGb))
      case TablePrefix => QuoteLiteral(c.location + "/" + n.tablespace)
      case DatabaseLiteral => QuoteLiteral(n.database)
      case UsernameLiteral => QuoteLiteral(user)
      case MaxConnections => Decimal.Of(p.maxConnections)
  }

  /** The two quotas are sent as numbers that read back, the storage quota in gigabytes. */
  lemma QuotasReadBack(c: T.Server, n: Names, p: State.InstanceParams, groupPassword: string, user: string,
          password: string)
    requires p.maxConnections >= 0 && p.storageGb >= 0
    ensures var vars := BuildVars(c, n, p, groupPassword, user, password);
      && Decimal.IsDigits(vars(MaxConnections)) && Decimal.Value(vars(MaxConnections)) == p.maxConnections
      && exists digits :: vars(StorageQuota) == QuoteLiteral(digits + "G")
           && Decimal.IsDigits(digits) && Decimal.Value(digits) == p.storageGb
  {
    hide QuoteLiteral, QuoteIdent, Decimal.OfNat, Decimal.Value;
    Decimal.ValueOfNat(p.maxConnections);
    Decimal.ValueOfNat(p.storageGb);
    var digits := Decimal.OfNat(p.storageGb);
    assert Quota(p.storageGb) == digits + "G";
  }

  // ------------------------------------------------- the statements as text

  function DefaultsFor(u: string): seq<string> { ["ALTER", "DEFAULT", "PRIVILEGES", "FOR", "ROLE", QuoteIdent(u)] }

  function TablesTo(r: string): seq<string>
  {
    ["GRANT", "SELECT,", "INSERT,", "UPDATE,", "DELETE", "ON", "TABLES", "TO", QuoteIdent(r)]
  }

  function SequencesTo(r: string): seq<string> { ["GRANT", "USAGE,", "SELECT", "ON", "SEQUENCES", "TO", QuoteIdent(r)] }

  function PlaceText(o: S.Place): string
  {
    match o.schema
    case Public => QuoteIdent(o.table)
    case Named(n) => QuoteIdent(n) + "." + QuoteIdent(o.table)
  }

  /** The words of a statement as the server is sent it. */
  function Words(s: S.Stmt): seq<string>
  {
    match s
    case CreateRole(r, p) => ["CREATE", "ROLE", QuoteIdent(r), "NOLOGIN", "PASSWORD", QuoteLiteral(p)]
    case Grant(r, m) => ["GRANT", QuoteIdent(r), "TO", QuoteIdent(m)]
    case Revoke(r, m) => ["REVOKE", QuoteIdent(r), "FROM", QuoteIdent(m)]
    case CreateTablespace(t, o, l, q) =>
      ["CREATE", "TABLESPACE", QuoteIdent(t), "OWNER", QuoteIdent(o)] +
      ["RELATIVE", "LOCATION", QuoteLiteral(l), "MAXSIZE", QuoteLiteral(Quota(q))]
    case CreateDatabase(d, o, e, c, t, k) =>
      ["CREATE", "DATABASE", QuoteIdent(d), "OWNER", QuoteIdent(o)] +
      (["TEMPLATE", "template0"] +
       (["ENCODING", QuoteLiteral(e)] +
        (["DBCOMPATIBILITY", QuoteLiteral(c)] +
         (["TABLESPACE", QuoteIdent(t)] +
          ["CONNECTION", "LIMIT", Decimal.Of(k)]))))
    case RevokePublicConnect(d) => ["REVOKE", "CONNECT", "ON", "DATABASE", QuoteIdent(d), "FROM", "PUBLIC"]
    case GrantConnect(d, r) => ["GRANT", "CONNECT", "ON", "DATABASE", QuoteIdent(d), "TO", QuoteIdent(r)]
    case EnablePrivateObjects(d) => ["ALTER", "DATABASE", QuoteIdent(d), "ENABLE", "PRIVATE", "OBJECT"]
    case GrantPublicSchema(r) => ["GRANT", "USAGE,", "CREATE", "ON", "SCHEMA", "public", "TO", QuoteIdent(r)]
    case GrantCreate(d, r) => ["GRANT", "CREATE", "ON", "DATABASE", QuoteIdent(d), "TO", QuoteIdent(r)]
    case TerminateDatabase(d) =>
      ["SELECT", "pg_terminate_backend(pid)", "FROM", "pg_stat_activity", "WHERE", "datname", "=", QuoteLiteral(d)]
    case DropDatabase(d) => ["DROP", "DATABASE", "IF", "EXISTS", QuoteIdent(d)]
    case DropTablespace(t) => ["DROP", "TABLESPACE", "IF", "EXISTS", QuoteIdent(t)]
    case DropRole(r) => ["DROP", "ROLE", "IF", "EXISTS", QuoteIdent(r)]
    case AlterLimit(d, k) => ["ALTER", "DATABASE", QuoteIdent(d), "CONNECTION", "LIMIT", "=", Decimal.Of(k)]
    case Resize(t, q) => ["ALTER", "TABLESPACE", QuoteIdent(t), "RESIZE", "MAXSIZE", QuoteLiteral(Quota(q))]
    case CreateUser(u, p) => ["CREATE", "USER", QuoteIdent(u), "LOGIN", "PASSWORD", QuoteLiteral(p)]
    case AlterDefaults(u, Tables, r) =>
      DefaultsFor(u) + (["IN", "SCHEMA", "public"] + TablesTo(r))
    case AlterDefaults(u, Sequences, r) =>
      DefaultsFor(u) + (["IN", "SCHEMA", "public"] + SequencesTo(r))
    case TerminateUser(u) =>
      ["SELECT", "pg_terminate_backend(pid)", "FROM", "pg_stat_activity", "WHERE", "usename", "=", QuoteLiteral(u)]
    case DropOwned(u) => ["DROP", "OWNED", "BY", QuoteIdent(u), "CASCADE"]
    case DropSchema(n) => ["DROP", "SCHEMA", "IF", "EXISTS", QuoteIdent(n), "CASCADE"]
    case DropUser(u) => ["DROP", "USER", "IF", "EXISTS", QuoteIdent(u)]
    case CreateObject(o) => ["CREATE", "TABLE", PlaceText(o), "()"]
    case DropObject(o) => ["DROP", "TABLE", PlaceText(o)]
    case CreateSchema(n) => ["CREATE", "SCHEMA", QuoteIdent(n)]
  }

  function Show(s: S.Stmt): string { Join(Words(s), ' ') }

  function ShowAll(stmts: seq<S.Stmt>): seq<string>
  {
    if stmts == [] then [] else [Show(stmts[0])] + ShowAll(stmts[1..])
  }

  // ------------------------------------------------- statement by statement

  /** A piece of a file: comments and empty lines, then one statement on one line or more, the later ones indented. */
  datatype Section<F> = Section(above: seq<Line<F>>, code: seq<seq<Word<F>>>)

  function CodeLines<F>(code: seq<seq<Word<F>>>, indent: nat): seq<Line<F>>
  {
    if code == [] then [] else [Code(indent, code[0], |code| == 1)] + CodeLines(code[1..], 2)
  }

  function LinesOf<F>(sections: seq<Section<F>>): seq<Line<F>>
  {
    if sections == [] then [] else sections[0].above + CodeLines(sections[0].code, 0) + LinesOf(sections[1..])
  }

  function Flat<F>(code: seq<seq<Word<F>>>): seq<Word<F>>
  {
    if code == [] then [] else code[0] + Flat(code[1..])
  }

  function Flats<F>(sections: seq<Section<F>>): (groups: seq<seq<Word<F>>>)
    ensures |groups| == |sections| && forall i | 0 <= i < |groups| :: groups[i] == Flat(sections[i].code)
  {
    if sections == [] then [] else [Flat(sections[0].code)] + Flats(sections[1..])
  }

  predicate Sensible<F>(section: Section<F>)
  {
    && (forall i | 0 <= i < |section.above| :: !section.above[i].Code?)
    && section.code != [] && (forall i | 0 <= i < |section.code| :: section.code[i] != [])
  }

  lemma GroupedLine<F>(pending: seq<Word<F>>, indent: nat, words: seq<Word<F>>, ends: bool, rest: seq<Line<F>>)
    ensures Grouped(pending, [Code(indent, words, ends)] + rest) ==
      if ends then [pending + words] + Grouped([], rest) else Grouped(pending + words, rest)
  {
    assert ([Code(indent, words, ends)] + rest)[1..] == rest;
  }

  lemma {:induction false} CodeLinesGroup<F>(pending: seq<Word<F>>, code: seq<seq<Word<F>>>, indent: nat,
          rest: seq<Line<F>>)
    requires code != []
    ensures Grouped(pending, CodeLines(code, indent) + rest) == [pending + Flat(code)] + Grouped([], rest)
    decreases |code|
  {
    hide Grouped;
    var after := CodeLines(code[1..], 2);
    GroupedLine(pending, indent, code[0], |code| == 1, after + rest);
    assert CodeLines(code, indent) + rest == [Code(indent, code[0], |code| == 1)] + (after + rest);
    if |code| == 1 {
      assert code[1..] == [] && after == [] && code[0] + Flat(code[1..]) == code[0];
      assert after + rest == rest;
    } else {
      CodeLinesGroup(pending + code[0], code[1..], 2, rest);
      assert pending + code[0] + Flat(code[1..]) == pending + (code[0] + Flat(code[1..]));
    }
  }

  lemma {:induction false} AboveGroups<F>(above: seq<Line<F>>, rest: seq<Line<F>>)
    requires forall i | 0 <= i < |above| :: !above[i].Code?
    ensures Grouped([], above + rest) == Grouped([], rest)
  {
    if above == [] {
      assert above + rest == rest;
    } else {
      AboveGroups(above[1..], rest);
      assert (above + rest)[1..] == above[1..] + rest;
    }
  }

  lemma SectionGroups<F>(section: Section<F>, rest: seq<Line<F>>)
    requires Sensible(section)
    ensures Grouped([], section.above + CodeLines(section.code, 0) + rest) == [Flat(section.code)] + Grouped([], rest)
  {
    hide Grouped, CodeLines, Flat;
    AboveGroups(section.above, CodeLines(section.code, 0) + rest);
    CodeLinesGroup([], section.code, 0, rest);
    assert section.above + CodeLines(section.code, 0) + rest == section.above + (CodeLines(section.code, 0) + rest);
    assert [] + Flat(section.code) == Flat(section.code);
  }

  lemma {:induction false} SectionsGroup<F>(sections: seq<Section<F>>)
    requires forall i | 0 <= i < |sections| :: Sensible(sections[i])
    ensures Grouped([], LinesOf(sections)) == Flats(sections)
  {
    hide CodeLines, Flat, Sensible;
    if sections != [] {
      hide Grouped;
      SectionsGroup(sections[1..]);
      SectionGroups(sections[0], LinesOf(sections[1..]));
    }
  }

  lemma {:induction false} CodeLinesAreWellFormed<F>(code: seq<seq<Word<F>>>, indent: nat, value: F -> string)
    requires forall i | 0 <= i < |code| :: code[i] != []
    ensures forall i | 0 <= i < |CodeLines(code, indent)| :: WellFormed(CodeLines(code, indent)[i])
    ensures FilledWords(Flat(code), value) ==> Filled(CodeLines(code, indent), value)
  {
    hide Spliceable;
    if code != [] {
      CodeLinesAreWellFormed(code[1..], 2, value);
      if FilledWords(Flat(code), value) {
        forall i | 0 <= i < |code[0]| && code[0][i].Field? ensures Spliceable(value(code[0][i].f)) {
          assert Flat(code)[i] == code[0][i];
        }
        forall i | 0 <= i < |Flat(code[1..])| && Flat(code[1..])[i].Field?
          ensures Spliceable(value(Flat(code[1..])[i].f))
        {
          assert Flat(code)[|code[0]| + i] == Flat(code[1..])[i];
        }
      }
    }
  }

  lemma {:induction false} LinesAreWellFormed<F>(sections: seq<Section<F>>, value: F -> string)
    requires forall i | 0 <= i < |sections| :: Sensible(sections[i]) && FilledWords(Flat(sections[i].code), value)
    ensures forall i | 0 <= i < |LinesOf(sections)| :: WellFormed(LinesOf(sections)[i])
    ensures Filled(LinesOf(sections), value)
  {
    hide Spliceable;
    if sections != [] {
      LinesAreWellFormed(sections[1..], value);
      CodeLinesAreWellFormed(sections[0].code, 0, value);
      assert forall i | 0 <= i < |sections[0].above| :: WellFormed(sections[0].above[i]);
    }
  }

  /** The section holds this statement, once its references are filled in. */
  predicate Holds(section: Section<Var>, vars: Vars, s: S.Stmt)
  {
    Sensible(section) && FilledWords(Flat(section.code), vars) && ShownWords(Flat(section.code), vars) == Words(s)
  }

  lemma {:induction false} ShownInOrder(sections: seq<Section<Var>>, vars: Vars, stmts: seq<S.Stmt>)
    requires |sections| == |stmts| && forall i | 0 <= i < |stmts| :: Holds(sections[i], vars, stmts[i])
    ensures ShownGroups(Flats(sections), vars) == ShowAll(stmts)
  {
    hide Words, Sensible, FilledWords;
    if stmts != [] {
      ShownInOrder(sections[1..], vars, stmts[1..]);
      assert Flats(sections)[1..] == Flats(sections[1..]);
    }
  }

  /** A file whose sections hold the statements of a batch sends the server exactly that batch. */
  lemma SectionsSend(sections: seq<Section<Var>>, vars: Vars, stmts: seq<S.Stmt>)
    requires |sections| == |stmts| && forall i | 0 <= i < |stmts| :: Holds(sections[i], vars, stmts[i])
    ensures SplitText(Render(FileText(LinesOf(sections)), vars)) == ShowAll(stmts)
  {
    hide Words;
    LinesAreWellFormed(sections, vars);
    FileRenders(LinesOf(sections), vars);
    SectionsGroup(sections);
    ShownInOrder(sections, vars, stmts);
  }

  // ------------------------------------------------- the files

  type File = seq<Section<Var>>

  /** The comments and empty lines above each statement of a file. They are left open: nothing depends on them. */
  type Layout = nat -> seq<Line<Var>>

  function K(text: Keyword): Word<Var> { Plain(text) }

  function V(v: Var): Word<Var> { Field(v) }

  function DatabaseHead(): seq<Word<Var>> { [K("CREATE"), K("DATABASE"), V(Database), K("OWNER"), V(GroupRole)] }

  function DatabaseTemplate(): seq<Word<Var>> { [K("TEMPLATE"), K("template0")] }

  function DatabaseEncoding(): seq<Word<Var>> { [K("ENCODING"), V(Encoding)] }

  function DatabaseCompatibility(): seq<Word<Var>> { [K("DBCOMPATIBILITY"), V(Compatibility)] }

  function DatabaseTablespace(): seq<Word<Var>> { [K("TABLESPACE"), V(Tablespace)] }

  function DatabaseLimit(): seq<Word<Var>> { [K("CONNECTION"), K("LIMIT"), V(MaxConnections)] }

  function DefaultsHead(): seq<Word<Var>> { [K("ALTER"), K("DEFAULT"), K("PRIVILEGES"), K("FOR"), K("ROLE"),
          V(Username)] }

  function InPublic(): seq<Word<Var>> { [K("IN"), K("SCHEMA"), K("public")] }

  function TableGrants(): seq<Word<Var>>
  {
    [K("GRANT"), K("SELECT,"), K("INSERT,"), K("UPDATE,"), K("DELETE"), K("ON"), K("TABLES"), K("TO"), V(GroupRole)]
  }

  function SequenceGrants(): seq<Word<Var>>
  {
    [K("GRANT"), K("USAGE,"), K("SELECT"), K("ON"), K("SEQUENCES"), K("TO"), V(GroupRole)]
  }

  function ProvisionAdminFile(above: Layout): File
  {
    [ Section(above(0), [[K("CREATE"), K("ROLE"), V(GroupRole), K("NOLOGIN"), K("PASSWORD"), V(GroupPassword)]]),
      Section(above(1), [[K("GRANT"), V(GroupRole), K("TO"), V(AdminUser)]]),
      Section(above(2), [[K("CREATE"), K("TABLESPACE"), V(Tablespace), K("OWNER"), V(GroupRole)],
                          [K("RELATIVE"), K("LOCATION"), V(TablePrefix), K("MAXSIZE"), V(StorageQuota)]]),
      Section(above(3), [DatabaseHead(), DatabaseTemplate(), DatabaseEncoding(), DatabaseCompatibility(),
          DatabaseTablespace(), DatabaseLimit()]),
      Section(above(4), [[K("REVOKE"), K("CONNECT"), K("ON"), K("DATABASE"), V(Database), K("FROM"), K("PUBLIC")]]),
      Section(above(5), [[K("GRANT"), K("CONNECT"), K("ON"), K("DATABASE"), V(Database), K("TO"), V(GroupRole)]]),
      Section(above(6), [[K("GRANT"), K("CONNECT"), K("ON"), K("DATABASE"), V(Database), K("TO"), V(AdminUser)]]),
      Section(above(7), [[K("REVOKE"), V(GroupRole), K("FROM"), V(AdminUser)]]) ]
  }

  function DatabaseSessions(): seq<Word<Var>>
  {
    [K("SELECT"), K("pg_terminate_backend(pid)"), K("FROM"), K("pg_stat_activity"), K("WHERE"), K("datname"), K("="),
     V(DatabaseLiteral)]
  }

  function UserSessions(): seq<Word<Var>>
  {
    [K("SELECT"), K("pg_terminate_backend(pid)"), K("FROM"), K("pg_stat_activity"), K("WHERE"), K("usename"), K("="),
     V(UsernameLiteral)]
  }

  function ProvisionTenantFile(above: Layout): File
  {
    [ Section(above(0), [[K("ALTER"), K("DATABASE"), V(Database), K("ENABLE"), K("PRIVATE"), K("OBJECT")]]),
      Section(above(1), [[K("GRANT"), K("USAGE,"), K("CREATE"), K("ON"), K("SCHEMA"), K("public"), K("TO"),
          V(GroupRole)]]),
      Section(above(2), [[K("GRANT"), K("CREATE"), K("ON"), K("DATABASE"), V(Database), K("TO"), V(GroupRole)]]) ]
  }

  function DeprovisionAdminFile(above: Layout): File
  {
    [ Section(above(0), [[K("GRANT"), V(GroupRole), K("TO"), V(AdminUser)]]),
      Section(above(1), [DatabaseSessions()]),
      Section(above(2), [[K("DROP"), K("DATABASE"), K("IF"), K("EXISTS"), V(Database)]]),
      Section(above(3), [[K("DROP"), K("TABLESPACE"), K("IF"), K("EXISTS"), V(Tablespace)]]),
      Section(above(4), [[K("REVOKE"), V(GroupRole), K("FROM"), V(AdminUser)]]),
      Section(above(5), [[K("DROP"), K("ROLE"), K("IF"), K("EXISTS"), V(GroupRole)]]) ]
  }

  function UpdateAdminFile(above: Layout): File
  {
    [ Section(above(0), [[K("GRANT"), V(GroupRole), K("TO"), V(AdminUser)]]),
      Section(above(1), [[K("ALTER"), K("DATABASE"), V(Database), K("CONNECTION"), K("LIMIT"), K("="),
          V(MaxConnections)]]),
      Section(above(2), [[K("ALTER"), K("TABLESPACE"), V(Tablespace), K("RESIZE"), K("MAXSIZE"), V(StorageQuota)]]),
      Section(above(3), [[K("REVOKE"), V(GroupRole), K("FROM"), V(AdminUser)]]) ]
  }

  function BindAdminFile(above: Layout): File
  {
    [ Section(above(0), [[K("CREATE"), K("USER"), V(Username), K("LOGIN"), K("PASSWORD"), V(Password)]]),
      Section(above(1), [[K("GRANT"), V(GroupRole), K("TO"), V(Username)]]) ]
  }

  function BindTenantFile(above: Layout): File
  {
    [ Section(above(0), [DefaultsHead(), InPublic(), TableGrants()]),
      Section(above(1), [DefaultsHead(), InPublic(), SequenceGrants()]) ]
  }

  function UnbindTenantFile(above: Layout): File
  {
    [ Section(above(0), [UserSessions()]),
      Section(above(1), [[K("DROP"), K("OWNED"), K("BY"), V(Username), K("CASCADE")]]) ]
  }

  function UnbindAdminFile(above: Layout): File
  {
    [ Section(above(0), [[K("DROP"), K("SCHEMA"), K("IF"), K("EXISTS"), V(Username), K("CASCADE")]]),
      Section(above(1), [[K("DROP"), K("USER"), K("IF"), K("EXISTS"), V(Username)]]) ]
  }

  // ------------------------------------------------- every batch is what its file sends

  /** No white space and no semicolon; a quote or a dash is harmless inside quotes. */
  predicate Solid(v: string)
  {
    forall i | 0 <= i < |v| :: IsVisible(CharClass(v[i]))
  }

  lemma {:induction false} DoubledIsSolid(v: string, q: char)
    requires Solid(v) && Solid([q])
    ensures Solid(Doubled(v, q))
  {
    hide CharClass;
    if v != [] {
      assert [q][0] == q;
      DoubledIsSolid(v[1..], q);
    }
  }

  lemma QuotedIsSpliceable(v: string)
    requires Solid(v)
    ensures Spliceable(QuoteIdent(v)) && Spliceable(QuoteLiteral(v))
  {
    assert Solid(['"']) && Solid(['\'']);
    DoubledIsSolid(v, '"');
    DoubledIsSolid(v, '\'');
  }

  lemma {:induction false} NumeralIsSpliceable(n: nat)
    ensures Spliceable(Decimal.Of(n)) && Solid(Quota(n))
  {
    Decimal.ValueOfNat(n);
    assert Decimal.Of(n) == Decimal.OfNat(n);
    DigitsAreSolid(Decimal.OfNat(n));
    assert Solid("G");
  }

  lemma DigitsAreSolid(s: string)
    requires Decimal.IsDigits(s)
    ensures Spliceable(s) && Solid(s)
  {
  }

  /** Every value a batch of this tenant refers to can be spliced. */
  lemma ValuesAreSpliceable(c: T.Server, n: Names, p: State.InstanceParams, groupPassword: string, user: string,
          password: string, v: Var)
    requires Solid(n.database) && Solid(n.groupRole) && Solid(n.tablespace) && Solid(c.user) && Solid(c.location)
    requires Solid(p.encoding) && Solid(p.compatibility) && Solid(groupPassword) && Solid(user) && Solid(password)
    requires p.maxConnections >= 0 && p.storageGb >= 0
    ensures Spliceable(BuildVars(c, n, p, groupPassword, user, password)(v))
  {
    hide CharClass;
    match v
    case Database => QuotedIsSpliceable(n.database);
    case GroupRole => QuotedIsSpliceable(n.groupRole);
    case Tablespace => QuotedIsSpliceable(n.tablespace);
    case AdminUser => QuotedIsSpliceable(c.user);
    case Username => QuotedIsSpliceable(user);
    case Password => QuotedIsSpliceable(password);
    case GroupPassword => QuotedIsSpliceable(groupPassword);
    case Encoding => QuotedIsSpliceable(p.encoding);
    case Compatibility => QuotedIsSpliceable(p.compatibility);
    case StorageQuota => NumeralIsSpliceable(p.storageGb); QuotedIsSpliceable(Quota(p.storageGb));
    case TablePrefix => LocationIsSolid(c.location, n.tablespace); QuotedIsSpliceable(c.location + "/" + n.tablespace);
    case DatabaseLiteral => QuotedIsSpliceable(n.database);
    case UsernameLiteral => QuotedIsSpliceable(user);
    case MaxConnections => NumeralIsSpliceable(p.maxConnections);
  }

  lemma LocationIsSolid(prefix: string, tablespace: string)
    requires Solid(prefix) && Solid(tablespace)
    ensures Solid(prefix + "/" + tablespace)
  {
    assert IsVisible(CharClass('/'));
    hide CharClass;
  }

  function ShownCode(code: seq<seq<Word<Var>>>, vars: Vars): seq<string>
  {
    if code == [] then []
    else if |code| == 1 then ShownWords(code[0], vars)
    else ShownWords(code[0], vars) + ShownCode(code[1..], vars)
  }

  lemma {:induction false} FlatIsShown(code: seq<seq<Word<Var>>>, vars: Vars)
    ensures ShownWords(Flat(code), vars) == ShownCode(code, vars)
  {
    if |code| == 1 {
      assert Flat(code[1..]) == [] && code[0] + [] == code[0];
    } else if code != [] {
      FlatIsShown(code[1..], vars);
      assert ShownWords(code[0] + Flat(code[1..]), vars) ==
          ShownWords(code[0], vars) + ShownWords(Flat(code[1..]), vars);
    }
  }

  lemma ShownLines(a: seq<Word<Var>>, b: seq<Word<Var>>, rest: seq<seq<Word<Var>>>, vars: Vars)
    ensures ShownCode([a] + ([b] + rest), vars) == ShownWords(a, vars) + ShownCode([b] + rest, vars)
    ensures ShownCode([a, b], vars) == ShownWords(a, vars) + ShownWords(b, vars)
  {
    assert ([a] + ([b] + rest))[1..] == [b] + rest && [a, b][1..] == [b];
  }

  lemma ThreeLines(a: seq<Word<Var>>, b: seq<Word<Var>>, c: seq<Word<Var>>, vars: Vars)
    ensures ShownCode([a, b, c], vars) == ShownWords(a, vars) + (ShownWords(b, vars) + ShownWords(c, vars))
  {
    ShownLines(b, c, [], vars);
    ShownLines(a, b, [c], vars);
    assert [a, b, c] == [a] + ([b] + [c]) && [b] + [c] == [b, c];
  }

  lemma SixLines(a: seq<Word<Var>>, b: seq<Word<Var>>, c: seq<Word<Var>>, d: seq<Word<Var>>, e: seq<Word<Var>>,
          f: seq<Word<Var>>, vars: Vars)
    ensures ShownCode([a, b, c, d, e, f], vars) ==
      ShownWords(a, vars) + (ShownWords(b, vars) + (ShownWords(c, vars) +
        (ShownWords(d, vars) + (ShownWords(e, vars) + ShownWords(f, vars)))))
  {
    ThreeLines(d, e, f, vars);
    assert [a, b, c, d, e, f][1..] == [b, c, d, e, f];
    assert [b, c, d, e, f][1..] == [c, d, e, f];
    assert [c, d, e, f][1..] == [d, e, f];
    assert ShownCode([c, d, e, f], vars) == ShownWords(c, vars) + ShownCode([d, e, f], vars);
    assert ShownCode([b, c, d, e, f], vars) == ShownWords(b, vars) + ShownCode([c, d, e, f], vars);
  }

  /** Comments and empty lines only. */
  predicate NoCode(above: seq<Line<Var>>)
  {
    forall k | 0 <= k < |above| :: !above[k].Code?
  }

  ghost predicate AllSpliceable(vars: Vars)
  {
    forall v :: Spliceable(vars(v))
  }

  lemma CodeHolds(section: Section<Var>, vars: Vars, s: S.Stmt)
    requires NoCode(section.above) && AllSpliceable(vars)
    requires section.code != [] && forall i | 0 <= i < |section.code| :: section.code[i] != []
    requires ShownCode(section.code, vars) == Words(s)
    ensures Holds(section, vars, s)
  {
    hide Words, Spliceable;
    FlatIsShown(section.code, vars);
  }

  /** A statement on one line. */
  lemma LineHolds(section: Section<Var>, words: seq<Word<Var>>, vars: Vars, s: S.Stmt)
    requires section.code == [words] && words != [] && NoCode(section.above)
    requires AllSpliceable(vars) && ShownWords(words, vars) == Words(s)
    ensures Holds(section, vars, s)
  {
    hide Words, Spliceable;
    CodeHolds(section, vars, s);
  }

  lemma GrantHolds(section: Section<Var>, vars: Vars, m: Var, role: string, member: string)
    requires section.code == [[K("GRANT"), V(GroupRole), K("TO"), V(m)]] && NoCode(section.above) && AllSpliceable(vars)
    requires vars(GroupRole) == QuoteIdent(role) && vars(m) == QuoteIdent(member)
    ensures Holds(section, vars, S.Grant(role, member))
  {
    hide Holds, IsKeyChar, QuoteIdent, QuoteLiteral, Quota, Decimal.Of, ShownWords;
    LineHolds(section, section.code[0], vars, S.Grant(role, member));
  }

  lemma RevokeHolds(section: Section<Var>, vars: Vars, role: string, member: string)
    requires section.code == [[K("REVOKE"), V(GroupRole), K("FROM"), V(AdminUser)]] && NoCode(section.above)
    requires AllSpliceable(vars)
    requires vars(GroupRole) == QuoteIdent(role) && vars(AdminUser) == QuoteIdent(member)
    ensures Holds(section, vars, S.Revoke(role, member))
  {
    hide Holds, IsKeyChar, QuoteIdent, QuoteLiteral, Quota, Decimal.Of, ShownWords;
    LineHolds(section, section.code[0], vars, S.Revoke(role, member));
  }

  lemma GrantConnectHolds(section: Section<Var>, vars: Vars, r: Var, database: string, role: string)
    requires section.code == [[K("GRANT"), K("CONNECT"), K("ON"), K("DATABASE"), V(Database), K("TO"), V(r)]]
    requires NoCode(section.above) && AllSpliceable(vars) && vars(Database) == QuoteIdent(database)
    requires vars(r) == QuoteIdent(role)
    ensures Holds(section, vars, S.GrantConnect(database, role))
  {
    hide Holds, IsKeyChar, QuoteIdent, QuoteLiteral, Quota, Decimal.Of, ShownWords;
    LineHolds(section, section.code[0], vars, S.GrantConnect(database, role));
  }

  lemma CreateTablespaceHolds(section: Section<Var>, vars: Vars, t: string, o: string, l: string, q: int)
    requires section.code == [[K("CREATE"), K("TABLESPACE"), V(Tablespace), K("OWNER"), V(GroupRole)],
                              [K("RELATIVE"), K("LOCATION"), V(TablePrefix), K("MAXSIZE"), V(StorageQuota)]]
    requires NoCode(section.above) && AllSpliceable(vars)
    requires vars(Tablespace) == QuoteIdent(t) && vars(GroupRole) == QuoteIdent(o)
    requires vars(TablePrefix) == QuoteLiteral(l) && vars(StorageQuota) == QuoteLiteral(Quota(q))
    ensures Holds(section, vars, S.CreateTablespace(t, o, l, q))
  {
    hide Holds, IsKeyChar, QuoteIdent, QuoteLiteral, Quota, Decimal.Of, ShownWords;
    var code := section.code;
    ShownLines(code[0], code[1], [], vars);
    CodeHolds(section, vars, S.CreateTablespace(t, o, l, q));
  }

  lemma DatabaseLinesShown(vars: Vars, d: string, o: string, e: string, c: string, t: string, k: int)
    requires vars(Database) == QuoteIdent(d) && vars(GroupRole) == QuoteIdent(o) && vars(Tablespace) == QuoteIdent(t)
    requires vars(Encoding) == QuoteLiteral(e) && vars(Compatibility) == QuoteLiteral(c)
    requires vars(MaxConnections) == Decimal.Of(k)
    ensures ShownWords(DatabaseHead(), vars) == ["CREATE", "DATABASE", QuoteIdent(d), "OWNER", QuoteIdent(o)]
    ensures ShownWords(DatabaseTemplate(), vars) == ["TEMPLATE", "template0"]
    ensures ShownWords(DatabaseEncoding(), vars) == ["ENCODING", QuoteLiteral(e)]
    ensures ShownWords(DatabaseCompatibility(), vars) == ["DBCOMPATIBILITY", QuoteLiteral(c)]
    ensures ShownWords(DatabaseTablespace(), vars) == ["TABLESPACE", QuoteIdent(t)]
    ensures ShownWords(DatabaseLimit(), vars) == ["CONNECTION", "LIMIT", Decimal.Of(k)]
    ensures DatabaseHead() != [] && DatabaseTemplate() != [] && DatabaseEncoding() != []
    ensures DatabaseCompatibility() != [] && DatabaseTablespace() != [] && DatabaseLimit() != []
  {
  }

  lemma CreateDatabaseHolds(section: Section<Var>, vars: Vars, d: string, o: string, e: string, c: string, t: string,
          k: int)
    requires section.code ==
      [DatabaseHead(), DatabaseTemplate(), DatabaseEncoding(), DatabaseCompatibility(), DatabaseTablespace(),
          DatabaseLimit()]
    requires NoCode(section.above) && AllSpliceable(vars)
    requires vars(Database) == QuoteIdent(d) && vars(GroupRole) == QuoteIdent(o) && vars(Tablespace) == QuoteIdent(t)
    requires vars(Encoding) == QuoteLiteral(e) && vars(Compatibility) == QuoteLiteral(c)
    requires vars(MaxConnections) == Decimal.Of(k)
    ensures Holds(section, vars, S.CreateDatabase(d, o, e, c, t, k))
  {
    DatabaseLinesShown(vars, d, o, e, c, t, k);
    hide Holds, DatabaseHead, DatabaseTemplate, DatabaseEncoding, DatabaseCompatibility, DatabaseTablespace,
        DatabaseLimit, IsKeyChar, QuoteIdent, QuoteLiteral, Quota, Decimal.Of, ShownWords;
    var code := section.code;
    SixLines(code[0], code[1], code[2], code[3], code[4], code[5], vars);
    CodeHolds(section, vars, S.CreateDatabase(d, o, e, c, t, k));
  }

  lemma DefaultsHeadShown(vars: Vars, u: string)
    requires vars(Username) == QuoteIdent(u)
    ensures ShownWords(DefaultsHead(), vars) == DefaultsFor(u) && DefaultsHead() != []
  {
    hide IsKeyChar;
  }

  lemma InPublicShown(vars: Vars)
    ensures ShownWords(InPublic(), vars) == ["IN", "SCHEMA", "public"] && InPublic() != []
  {
    hide IsKeyChar;
  }

  lemma TableGrantsShown(vars: Vars, r: string)
    requires vars(GroupRole) == QuoteIdent(r)
    ensures ShownWords(TableGrants(), vars) == TablesTo(r) && TableGrants() != []
  {
    hide IsKeyChar;
  }

  lemma SequenceGrantsShown(vars: Vars, r: string)
    requires vars(GroupRole) == QuoteIdent(r)
    ensures ShownWords(SequenceGrants(), vars) == SequencesTo(r) && SequenceGrants() != []
  {
    hide IsKeyChar;
  }

  lemma DefaultsWords(u: string, r: string)
    ensures Words(S.AlterDefaults(u, S.Tables, r)) == DefaultsFor(u) + (["IN", "SCHEMA", "public"] + TablesTo(r))
    ensures Words(S.AlterDefaults(u, S.Sequences, r)) == DefaultsFor(u) + (["IN", "SCHEMA", "public"] + SequencesTo(r))
  {
    hide DefaultsFor, TablesTo, SequencesTo;
  }

  lemma TableDefaultsHold(section: Section<Var>, vars: Vars, u: string, r: string)
    requires section.code == [DefaultsHead(), InPublic(), TableGrants()]
    requires NoCode(section.above) && AllSpliceable(vars) && vars(Username) == QuoteIdent(u)
    requires vars(GroupRole) == QuoteIdent(r)
    ensures Holds(section, vars, S.AlterDefaults(u, S.Tables, r))
  {
    hide Holds, DefaultsHead, InPublic, TableGrants, DefaultsFor, TablesTo, Words, IsKeyChar, ShownWords;
    DefaultsHeadShown(vars, u);
    InPublicShown(vars);
    TableGrantsShown(vars, r);
    DefaultsWords(u, r);
    var code := section.code;
    ThreeLines(code[0], code[1], code[2], vars);
    CodeHolds(section, vars, S.AlterDefaults(u, S.Tables, r));
  }

  lemma SequenceDefaultsHold(section: Section<Var>, vars: Vars, u: string, r: string)
    requires section.code == [DefaultsHead(), InPublic(), SequenceGrants()]
    requires NoCode(section.above) && AllSpliceable(vars) && vars(Username) == QuoteIdent(u)
    requires vars(GroupRole) == QuoteIdent(r)
    ensures Holds(section, vars, S.AlterDefaults(u, S.Sequences, r))
  {
    hide Holds, DefaultsHead, InPublic, SequenceGrants, DefaultsFor, SequencesTo, Words, IsKeyChar, ShownWords;
    DefaultsHeadShown(vars, u);
    InPublicShown(vars);
    SequenceGrantsShown(vars, r);
    DefaultsWords(u, r);
    var code := section.code;
    ThreeLines(code[0], code[1], code[2], vars);
    CodeHolds(section, vars, S.AlterDefaults(u, S.Sequences, r));
  }

  lemma CreateRoleHolds(section: Section<Var>, vars: Vars, r: string, p: string)
    requires section.code == [[K("CREATE"), K("ROLE"), V(GroupRole), K("NOLOGIN"), K("PASSWORD"), V(GroupPassword)]]
    requires NoCode(section.above) && AllSpliceable(vars) && vars(GroupRole) == QuoteIdent(r)
    requires vars(GroupPassword) == QuoteLiteral(p)
    ensures Holds(section, vars, S.CreateRole(r, p))
  {
    hide Holds, IsKeyChar, QuoteIdent, QuoteLiteral, Quota, Decimal.Of, ShownWords;
    LineHolds(section, section.code[0], vars, S.CreateRole(r, p));
  }

  lemma RevokePublicHolds(section: Section<Var>, vars: Vars, d: string)
    requires section.code == [[K("REVOKE"), K("CONNECT"), K("ON"), K("DATABASE"), V(Database), K("FROM"), K("PUBLIC")]]
    requires NoCode(section.above) && AllSpliceable(vars) && vars(Database) == QuoteIdent(d)
    ensures Holds(section, vars, S.RevokePublicConnect(d))
  {
    hide Holds, IsKeyChar, QuoteIdent, QuoteLiteral, Quota, Decimal.Of, ShownWords;
    LineHolds(section, section.code[0], vars, S.RevokePublicConnect(d));
  }

  lemma TerminateDatabaseHolds(section: Section<Var>, vars: Vars, d: string)
    requires section.code == [DatabaseSessions()]
    requires NoCode(section.above) && AllSpliceable(vars) && vars(DatabaseLiteral) == QuoteLiteral(d)
    ensures Holds(section, vars, S.TerminateDatabase(d))
  {
    hide Holds, IsKeyChar, QuoteIdent, QuoteLiteral, Quota, Decimal.Of, ShownWords;
    LineHolds(section, section.code[0], vars, S.TerminateDatabase(d));
  }

  lemma TerminateUserHolds(section: Section<Var>, vars: Vars, u: string)
    requires section.code == [UserSessions()]
    requires NoCode(section.above) && AllSpliceable(vars) && vars(UsernameLiteral) == QuoteLiteral(u)
    ensures Holds(section, vars, S.TerminateUser(u))
  {
    hide Holds, IsKeyChar, QuoteIdent, QuoteLiteral, Quota, Decimal.Of, ShownWords;
    LineHolds(section, section.code[0], vars, S.TerminateUser(u));
  }

  lemma DropWords(s: S.Stmt)
    ensures s.DropDatabase? ==> Words(s) == ["DROP", "DATABASE", "IF", "EXISTS", QuoteIdent(s.name)]
    ensures s.DropTablespace? ==> Words(s) == ["DROP", "TABLESPACE", "IF", "EXISTS", QuoteIdent(s.name)]
    ensures s.DropRole? ==> Words(s) == ["DROP", "ROLE", "IF", "EXISTS", QuoteIdent(s.role)]
    ensures s.DropUser? ==> Words(s) == ["DROP", "USER", "IF", "EXISTS", QuoteIdent(s.user)]
  {
    hide QuoteIdent;
  }

  lemma DropHolds(section: Section<Var>, vars: Vars, kind: Word<Var>, v: Var, s: S.Stmt)
    requires section.code == [[K("DROP"), kind, K("IF"), K("EXISTS"), V(v)]] && NoCode(section.above)
    requires AllSpliceable(vars)
    requires || (kind == K("DATABASE") && s.DropDatabase? && vars(v) == QuoteIdent(s.name))
             || (kind == K("TABLESPACE") && s.DropTablespace? && vars(v) == QuoteIdent(s.name))
             || (kind == K("ROLE") && s.DropRole? && vars(v) == QuoteIdent(s.role))
             || (kind == K("USER") && s.DropUser? && vars(v) == QuoteIdent(s.user))
    ensures Holds(section, vars, s)
  {
    hide Holds, IsKeyChar, QuoteIdent, Words, QuoteLiteral, Quota, Decimal.Of;
    DropWords(s);
    LineHolds(section, section.code[0], vars, s);
  }

  lemma EnablePrivateHolds(section: Section<Var>, vars: Vars, d: string)
    requires section.code == [[K("ALTER"), K("DATABASE"), V(Database), K("ENABLE"), K("PRIVATE"), K("OBJECT")]]
    requires NoCode(section.above) && AllSpliceable(vars) && vars(Database) == QuoteIdent(d)
    ensures Holds(section, vars, S.EnablePrivateObjects(d))
  {
    hide Holds, IsKeyChar, QuoteIdent, QuoteLiteral, Quota, Decimal.Of, ShownWords;
    LineHolds(section, section.code[0], vars, S.EnablePrivateObjects(d));
  }

  lemma GrantPublicSchemaHolds(section: Section<Var>, vars: Vars, r: string)
    requires section.code ==
      [[K("GRANT"), K("USAGE,"), K("CREATE"), K("ON"), K("SCHEMA"), K("public"), K("TO"), V(GroupRole)]]
    requires NoCode(section.above) && AllSpliceable(vars) && vars(GroupRole) == QuoteIdent(r)
    ensures Holds(section, vars, S.GrantPublicSchema(r))
  {
    hide Holds, IsKeyChar, QuoteIdent, QuoteLiteral, Quota, Decimal.Of, ShownWords;
    LineHolds(section, section.code[0], vars, S.GrantPublicSchema(r));
  }

  lemma GrantCreateHolds(section: Section<Var>, vars: Vars, d: string, r: string)
    requires section.code == [[K("GRANT"), K("CREATE"), K("ON"), K("DATABASE"), V(Database), K("TO"), V(GroupRole)]]
    requires NoCode(section.above) && AllSpliceable(vars) && vars(Database) == QuoteIdent(d)
    requires vars(GroupRole) == QuoteIdent(r)
    ensures Holds(section, vars, S.GrantCreate(d, r))
  {
    hide Holds, IsKeyChar, QuoteIdent, QuoteLiteral, Quota, Decimal.Of, ShownWords;
    LineHolds(section, section.code[0], vars, S.GrantCreate(d, r));
  }

  lemma AlterLimitHolds(section: Section<Var>, vars: Vars, d: string, k: int)
    requires section.code ==
      [[K("ALTER"), K("DATABASE"), V(Database), K("CONNECTION"), K("LIMIT"), K("="), V(MaxConnections)]]
    requires NoCode(section.above) && AllSpliceable(vars) && vars(Database) == QuoteIdent(d)
    requires vars(MaxConnections) == Decimal.Of(k)
    ensures Holds(section, vars, S.AlterLimit(d, k))
  {
    hide Holds, IsKeyChar, QuoteIdent, QuoteLiteral, Quota, Decimal.Of, ShownWords;
    LineHolds(section, section.code[0], vars, S.AlterLimit(d, k));
  }

  lemma ResizeHolds(section: Section<Var>, vars: Vars, t: string, q: int)
    requires section.code == [[K("ALTER"), K("TABLESPACE"), V(Tablespace), K("RESIZE"), K("MAXSIZE"), V(StorageQuota)]]
    requires NoCode(section.above) && AllSpliceable(vars) && vars(Tablespace) == QuoteIdent(t)
    requires vars(StorageQuota) == QuoteLiteral(Quota(q))
    ensures Holds(section, vars, S.Resize(t, q))
  {
    hide Holds, IsKeyChar, QuoteIdent, QuoteLiteral, Quota, Decimal.Of, ShownWords;
    LineHolds(section, section.code[0], vars, S.Resize(t, q));
  }

  lemma CreateUserHolds(section: Section<Var>, vars: Vars, u: string, p: string)
    requires section.code == [[K("CREATE"), K("USER"), V(Username), K("LOGIN"), K("PASSWORD"), V(Password)]]
    requires NoCode(section.above) && AllSpliceable(vars) && vars(Username) == QuoteIdent(u)
    requires vars(Password) == QuoteLiteral(p)
    ensures Holds(section, vars, S.CreateUser(u, p))
  {
    hide Holds, IsKeyChar, QuoteIdent, QuoteLiteral, Quota, Decimal.Of, ShownWords;
    LineHolds(section, section.code[0], vars, S.CreateUser(u, p));
  }

  lemma DropOwnedHolds(section: Section<Var>, vars: Vars, u: string)
    requires section.code == [[K("DROP"), K("OWNED"), K("BY"), V(Username), K("CASCADE")]]
    requires NoCode(section.above) && AllSpliceable(vars) && vars(Username) == QuoteIdent(u)
    ensures Holds(section, vars, S.DropOwned(u))
  {
    hide Holds, IsKeyChar, QuoteIdent, QuoteLiteral, Quota, Decimal.Of, ShownWords;
    LineHolds(section, section.code[0], vars, S.DropOwned(u));
  }

  lemma DropSchemaHolds(section: Section<Var>, vars: Vars, u: string)
    requires section.code == [[K("DROP"), K("SCHEMA"), K("IF"), K("EXISTS"), V(Username), K("CASCADE")]]
    requires NoCode(section.above) && AllSpliceable(vars) && vars(Username) == QuoteIdent(u)
    ensures Holds(section, vars, S.DropSchema(u))
  {
    hide Holds, IsKeyChar, QuoteIdent, QuoteLiteral, Quota, Decimal.Of, ShownWords;
    LineHolds(section, section.code[0], vars, S.DropSchema(u));
  }

  lemma CreatingSectionsHold(c: T.Server, n: Names, p: State.InstanceParams, groupPassword: string, vars: Vars,
          above: Layout)
    requires (forall i :: NoCode(above(i))) && AllSpliceable(vars)
    requires exists user, password :: vars == BuildVars(c, n, p, groupPassword, user, password)
    ensures var f, b := ProvisionAdminFile(above), T.ProvisionAdmin(c, n, p, groupPassword);
      forall i | 0 <= i < 4 :: Holds(f[i], vars, b[i])
  {
    hide Holds, AllSpliceable, NoCode, IsKeyChar, DatabaseHead, DatabaseTemplate, DatabaseEncoding,
        DatabaseCompatibility, DatabaseTablespace, DatabaseLimit, ShownWords, Words;
    var f := ProvisionAdminFile(above);
    CreateRoleHolds(f[0], vars, n.groupRole, groupPassword);
    GrantHolds(f[1], vars, AdminUser, n.groupRole, c.user);
    CreateTablespaceHolds(f[2], vars, n.tablespace, n.groupRole, c.location + "/" + n.tablespace, p.storageGb);
    CreateDatabaseHolds(f[3], vars, n.database, n.groupRole, p.encoding, p.compatibility, n.tablespace,
        p.maxConnections);
  }

  lemma IsolatingSectionsHold(c: T.Server, n: Names, p: State.InstanceParams, groupPassword: string, vars: Vars,
          above: Layout)
    requires (forall i :: NoCode(above(i))) && AllSpliceable(vars)
    requires exists user, password :: vars == BuildVars(c, n, p, groupPassword, user, password)
    ensures var f, b := ProvisionAdminFile(above), T.ProvisionAdmin(c, n, p, groupPassword);
      forall i | 4 <= i < 8 :: Holds(f[i], vars, b[i])
  {
    hide Holds, AllSpliceable, NoCode, IsKeyChar, DatabaseHead, DatabaseTemplate, DatabaseEncoding,
        DatabaseCompatibility, DatabaseTablespace, DatabaseLimit, ShownWords, Words;
    var f := ProvisionAdminFile(above);
    RevokePublicHolds(f[4], vars, n.database);
    GrantConnectHolds(f[5], vars, GroupRole, n.database, n.groupRole);
    GrantConnectHolds(f[6], vars, AdminUser, n.database, c.user);
    RevokeHolds(f[7], vars, n.groupRole, c.user);
  }

  lemma EightSections(above: Layout)
    ensures |ProvisionAdminFile(above)| == 8
  {
  }

  /** The admin-side creating batch is what its file sends, whatever comments stand in it. */
  lemma ProvisionAdminSends(c: T.Server, n: Names, p: State.InstanceParams, groupPassword: string, user: string,
          password: string, above: Layout)
    requires (forall i :: NoCode(above(i))) && AllSpliceable(BuildVars(c, n, p, groupPassword, user, password))
    ensures SplitText(Render(FileText(LinesOf(ProvisionAdminFile(above))),
        BuildVars(c, n, p, groupPassword, user, password)))
         == ShowAll(T.ProvisionAdmin(c, n, p, groupPassword))
  {
    hide Holds, AllSpliceable, NoCode, ProvisionAdminFile, BuildVars;
    var vars := BuildVars(c, n, p, groupPassword, user, password);
    EightSections(above);
    CreatingSectionsHold(c, n, p, groupPassword, vars, above);
    IsolatingSectionsHold(c, n, p, groupPassword, vars, above);
    SectionsSend(ProvisionAdminFile(above), vars, T.ProvisionAdmin(c, n, p, groupPassword));
  }

  /** The tenant-side creating batch. */
  lemma ProvisionTenantSends(c: T.Server, n: Names, p: State.InstanceParams, groupPassword: string, user: string,
          password: string, above: Layout)
    requires (forall i :: NoCode(above(i))) && AllSpliceable(BuildVars(c, n, p, groupPassword, user, password))
    ensures SplitText(Render(FileText(LinesOf(ProvisionTenantFile(above))),
        BuildVars(c, n, p, groupPassword, user, password)))
         == ShowAll(T.ProvisionTenant(n))
  {
    hide Holds, AllSpliceable, NoCode, IsKeyChar;
    var vars, f := BuildVars(c, n, p, groupPassword, user, password), ProvisionTenantFile(above);
    EnablePrivateHolds(f[0], vars, n.database);
    GrantPublicSchemaHolds(f[1], vars, n.groupRole);
    GrantCreateHolds(f[2], vars, n.database, n.groupRole);
    SectionsSend(f, vars, T.ProvisionTenant(n));
  }

  /** The removing batch, which is also the rollback of a creation. */
  lemma DeprovisionAdminSends(c: T.Server, n: Names, p: State.InstanceParams, groupPassword: string, user: string,
          password: string, above: Layout)
    requires (forall i :: NoCode(above(i))) && AllSpliceable(BuildVars(c, n, p, groupPassword, user, password))
    ensures SplitText(Render(FileText(LinesOf(DeprovisionAdminFile(above))),
        BuildVars(c, n, p, groupPassword, user, password)))
         == ShowAll(T.DeprovisionAdmin(c, n))
  {
    hide Holds, AllSpliceable, NoCode, IsKeyChar;
    var vars, f := BuildVars(c, n, p, groupPassword, user, password), DeprovisionAdminFile(above);
    GrantHolds(f[0], vars, AdminUser, n.groupRole, c.user);
    TerminateDatabaseHolds(f[1], vars, n.database);
    DropHolds(f[2], vars, K("DATABASE"), Database, S.DropDatabase(n.database));
    DropHolds(f[3], vars, K("TABLESPACE"), Tablespace, S.DropTablespace(n.tablespace));
    RevokeHolds(f[4], vars, n.groupRole, c.user);
    DropHolds(f[5], vars, K("ROLE"), GroupRole, S.DropRole(n.groupRole));
    SectionsSend(f, vars, T.DeprovisionAdmin(c, n));
  }

  /** The quota batch. */
  lemma UpdateAdminSends(c: T.Server, n: Names, p: State.InstanceParams, groupPassword: string, user: string,
          password: string, above: Layout)
    requires (forall i :: NoCode(above(i))) && AllSpliceable(BuildVars(c, n, p, groupPassword, user, password))
    ensures SplitText(Render(FileText(LinesOf(UpdateAdminFile(above))),
        BuildVars(c, n, p, groupPassword, user, password)))
         == ShowAll(T.UpdateAdmin(c, n, p))
  {
    hide Holds, AllSpliceable, NoCode, IsKeyChar;
    var vars, f := BuildVars(c, n, p, groupPassword, user, password), UpdateAdminFile(above);
    GrantHolds(f[0], vars, AdminUser, n.groupRole, c.user);
    AlterLimitHolds(f[1], vars, n.database, p.maxConnections);
    ResizeHolds(f[2], vars, n.tablespace, p.storageGb);
    RevokeHolds(f[3], vars, n.groupRole, c.user);
    SectionsSend(f, vars, T.UpdateAdmin(c, n, p));
  }

  /** The user-creating batch. */
  lemma BindAdminSends(c: T.Server, n: Names, p: State.InstanceParams, groupPassword: string, user: string,
          password: string, above: Layout)
    requires (forall i :: NoCode(above(i))) && AllSpliceable(BuildVars(c, n, p, groupPassword, user, password))
    ensures SplitText(Render(FileText(LinesOf(BindAdminFile(above))),
        BuildVars(c, n, p, groupPassword, user, password)))
         == ShowAll(T.BindAdmin(n, user, password))
  {
    hide Holds, AllSpliceable, NoCode, IsKeyChar;
    var vars, f := BuildVars(c, n, p, groupPassword, user, password), BindAdminFile(above);
    CreateUserHolds(f[0], vars, user, password);
    GrantHolds(f[1], vars, Username, n.groupRole, user);
    SectionsSend(f, vars, T.BindAdmin(n, user, password));
  }

  /** The default privileges of a new user. */
  lemma BindTenantSends(c: T.Server, n: Names, p: State.InstanceParams, groupPassword: string, user: string,
          password: string, above: Layout)
    requires (forall i :: NoCode(above(i))) && AllSpliceable(BuildVars(c, n, p, groupPassword, user, password))
    ensures SplitText(Render(FileText(LinesOf(BindTenantFile(above))),
        BuildVars(c, n, p, groupPassword, user, password)))
         == ShowAll(T.BindTenant(n, user))
  {
    hide Holds, AllSpliceable, NoCode, IsKeyChar, DefaultsHead, InPublic, TableGrants, SequenceGrants;
    var vars, f := BuildVars(c, n, p, groupPassword, user, password), BindTenantFile(above);
    TableDefaultsHold(f[0], vars, user, n.groupRole);
    SequenceDefaultsHold(f[1], vars, user, n.groupRole);
    SectionsSend(f, vars, T.BindTenant(n, user));
  }

  /** The tenant-side removal of a user. */
  lemma UnbindTenantSends(c: T.Server, n: Names, p: State.InstanceParams, groupPassword: string, user: string,
          password: string, above: Layout)
    requires (forall i :: NoCode(above(i))) && AllSpliceable(BuildVars(c, n, p, groupPassword, user, password))
    ensures SplitText(Render(FileText(LinesOf(UnbindTenantFile(above))),
        BuildVars(c, n, p, groupPassword, user, password)))
         == ShowAll(T.UnbindTenant(user))
  {
    hide Holds, AllSpliceable, NoCode, IsKeyChar;
    var vars, f := BuildVars(c, n, p, groupPassword, user, password), UnbindTenantFile(above);
    TerminateUserHolds(f[0], vars, user);
    DropOwnedHolds(f[1], vars, user);
    SectionsSend(f, vars, T.UnbindTenant(user));
  }

  /** The admin-side removal of a user: its own schema, then the user, last. */
  lemma UnbindAdminSends(c: T.Server, n: Names, p: State.InstanceParams, groupPassword: string, user: string,
          password: string, above: Layout)
    requires (forall i :: NoCode(above(i))) && AllSpliceable(BuildVars(c, n, p, groupPassword, user, password))
    ensures SplitText(Render(FileText(LinesOf(UnbindAdminFile(above))),
        BuildVars(c, n, p, groupPassword, user, password)))
         == ShowAll(T.UnbindAdmin(user))
  {
    hide Holds, AllSpliceable, NoCode, IsKeyChar;
    var vars, f := BuildVars(c, n, p, groupPassword, user, password), UnbindAdminFile(above);
    DropSchemaHolds(f[0], vars, user);
    DropHolds(f[1], vars, K("USER"), Username, S.DropUser(user));
    SectionsSend(f, vars, T.UnbindAdmin(user));
  }

  // ------------------------------------------------- what the values are made of

  lemma IdentifierIsSolid(s: string)
    requires IsIdentifier(s)
    ensures Solid(s)
  {
  }

  lemma {:induction false} PasswordIsSolid(p: string)
    requires forall i | 0 <= i < |p| :: p[i] in PasswordAlphabet()
    ensures Solid(p)
  {
    forall i | 0 <= i < |p| ensures IsVisible(CharClass(p[i])) {
      assert forall c | c in PasswordAlphabet() :: '!' <= c <= '~' && c != ';' by { AlphabetIsPrintable(); }
    }
  }

  lemma LowersAreLetters()
    ensures forall c | c in LOWERS :: 'a' <= c <= 'z'
  {
  }

  lemma UppersAreLetters()
    ensures forall c | c in UPPERS :: 'A' <= c <= 'Z'
  {
  }

  lemma AlphabetIsPrintable()
    ensures forall c | c in PasswordAlphabet() :: '!' <= c <= '~' && c != ';'
  {
    LowersAreLetters();
    UppersAreLetters();
    assert forall c | c in DIGITS :: '0' <= c <= '9';
    assert forall c | c in SPECIALS :: '!' <= c <= '~' && c != ';';
  }

  /** The tablespace location prefixes the configuration accepts: `[A-Za-z0-9_-]{1,32}`. */
  predicate AcceptedLocation(l: string)
  {
    0 < |l| <= 32 && forall i | 0 <= i < |l| ::
      'A' <= l[i] <= 'Z' || 'a' <= l[i] <= 'z' || '0' <= l[i] <= '9' || l[i] == '_' || l[i] == '-'
  }

  predicate FromAlphabet(p: string)
  {
    forall i | 0 <= i < |p| :: p[i] in PasswordAlphabet()
  }

  /** Parameters an operation can be given: resolved ones, or the empty set of the operations that need none. */
  predicate Prepared(p: State.InstanceParams)
  {
    && (p.encoding in Params.ENCODINGS || p.encoding == "")
    && (p.compatibility in Params.COMPATIBILITIES || p.compatibility == "")
    && p.maxConnections >= 0 && p.storageGb >= 0
  }

  lemma ChoicesAreSolid(p: State.InstanceParams)
    requires Prepared(p)
    ensures Solid(p.encoding) && Solid(p.compatibility)
  {
    hide Solid;
    if p.encoding != "" {
      LocationPrefixIsSolid(p.encoding);
    }
    if p.compatibility != "" {
      LocationPrefixIsSolid(p.compatibility);
    }
    NothingIsSolid();
  }

  lemma NothingIsSolid()
    ensures Solid("")
  {
  }

  lemma LocationPrefixIsSolid(l: string)
    requires AcceptedLocation(l)
    ensures Solid(l)
  {
  }

  /** Nothing that names, parameters or passwords can hold is ever taken for SQL syntax by the splitting. */
  lemma EveryValueFits(lib: Library, prefix: string, id: string, name: string, b: string, userName: string,
                       c: T.Server, p: State.InstanceParams, groupPassword: string, password: string)
    requires Lawful(lib) && AcceptedPrefix(prefix) && Solid(c.user) && AcceptedLocation(c.location)
    requires Prepared(p) && FromAlphabet(groupPassword) && FromAlphabet(password)
    ensures AllSpliceable(BuildVars(c, NamesFor(lib, id, prefix, name), p, groupPassword,
        UserFor(lib, b, prefix, userName), password))
  {
    hide Spliceable, BuildVars, CharClass, PasswordAlphabet, NamesFor, UserFor;
    var n, u := NamesFor(lib, id, prefix, name), UserFor(lib, b, prefix, userName);
    DerivedNamesAreIdentifiers(lib, prefix, id, name);
    DerivedNamesAreIdentifiers(lib, prefix, b, userName);
    IdentifierIsSolid(n.database);
    IdentifierIsSolid(n.groupRole);
    IdentifierIsSolid(n.tablespace);
    IdentifierIsSolid(u);
    LocationPrefixIsSolid(c.location);
    ChoicesAreSolid(p);
    PasswordIsSolid(groupPassword);
    PasswordIsSolid(password);
    forall v ensures Spliceable(BuildVars(c, n, p, groupPassword, u, password)(v)) {
      ValuesAreSpliceable(c, n, p, groupPassword, u, password, v);
    }
  }

  /** The text the server is sent for one file. */
  function Sent(file: Layout -> File, above: Layout, vars: Vars): seq<string>
  {
    SplitText(Render(FileText(LinesOf(file(above))), vars))
  }

  /** For all ids, names, parameters and passwords the eight embedded files send the server exactly the modelled
      batches, whatever their comments say. */
  lemma FilesSendTheBatches(lib: Library, prefix: string, id: string, name: string, b: string, userName: string,
                            c: T.Server, p: State.InstanceParams, groupPassword: string, password: string,
                                above: Layout)
    requires Lawful(lib) && AcceptedPrefix(prefix) && Solid(c.user) && AcceptedLocation(c.location)
    requires Prepared(p) && FromAlphabet(groupPassword) && FromAlphabet(password) && forall i :: NoCode(above(i))
    ensures var n, user := NamesFor(lib, id, prefix, name), UserFor(lib, b, prefix, userName);
      var vars := BuildVars(c, n, p, groupPassword, user, password);
      && Sent(ProvisionAdminFile, above, vars) == ShowAll(T.ProvisionAdmin(c, n, p, groupPassword))
      && Sent(ProvisionTenantFile, above, vars) == ShowAll(T.ProvisionTenant(n))
      && Sent(DeprovisionAdminFile, above, vars) == ShowAll(T.DeprovisionAdmin(c, n))
      && Sent(UpdateAdminFile, above, vars) == ShowAll(T.UpdateAdmin(c, n, p))
      && Sent(BindAdminFile, above, vars) == ShowAll(T.BindAdmin(n, user, password))
      && Sent(BindTenantFile, above, vars) == ShowAll(T.BindTenant(n, user))
      && Sent(UnbindTenantFile, above, vars) == ShowAll(T.UnbindTenant(user))
      && Sent(UnbindAdminFile, above, vars) == ShowAll(T.UnbindAdmin(user))
  {
    hide AllSpliceable, BuildVars, NamesFor, UserFor, NoCode, LinesOf, FileText, Render, SplitText, ShowAll;
    hide ProvisionAdminFile, ProvisionTenantFile, DeprovisionAdminFile, UpdateAdminFile;
    hide BindAdminFile, BindTenantFile, UnbindTenantFile, UnbindAdminFile;
    var n, user := NamesFor(lib, id, prefix, name), UserFor(lib, b, prefix, userName);
    EveryValueFits(lib, prefix, id, name, b, userName, c, p, groupPassword, password);
    ProvisionAdminSends(c, n, p, groupPassword, user, password, above);
    ProvisionTenantSends(c, n, p, groupPassword, user, password, above);
    DeprovisionAdminSends(c, n, p, groupPassword, user, password, above);
    UpdateAdminSends(c, n, p, groupPassword, user, password, above);
    BindAdminSends(c, n, p, groupPassword, user, password, above);
    BindTenantSends(c, n, p, groupPassword, user, password, above);
    UnbindTenantSends(c, n, p, groupPassword, user, password, above);
    UnbindAdminSends(c, n, p, groupPassword, user, password, above);
  }
}
