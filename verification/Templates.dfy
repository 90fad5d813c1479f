/** SQL templates: text with references to prepared values. Rendering and then splitting gives the same
    statements as splitting and then rendering, for values that cannot be taken for syntax. */
module Templates {
  import opened Text

  datatype Symbol<F> = Ch(c: char) | Ref(f: F)

  function SymbolClass<F>(x: Symbol<F>): Class
  {
    match x case Ch(c) => CharClass(c) case Ref(_) => Other
  }

  function Put<F>(x: Symbol<F>, value: F -> string): string
  {
    match x case Ch(c) => [c] case Ref(f) => value(f)
  }

  function Render<F>(template: seq<Symbol<F>>, value: F -> string): string
  {
    if template == [] then [] else Put(template[0], value) + Render(template[1..], value)
  }

  /** Not empty, no white space, no semicolon, and no dash in front. */
  predicate Spliceable(v: string)
  {
    v != [] && v[0] != '-' && forall i | 0 <= i < |v| :: IsVisible(CharClass(v[i]))
  }

  /** Every value the template refers to can be spliced. */
  predicate Fit<F>(template: seq<Symbol<F>>, value: F -> string)
  {
    forall i | 0 <= i < |template| :: template[i].Ref? ==> Spliceable(value(template[i].f))
  }

  function RenderAll<F>(parts: seq<seq<Symbol<F>>>, value: F -> string): seq<string>
  {
    if parts == [] then [] else [Render(parts[0], value)] + RenderAll(parts[1..], value)
  }

  function SplitTemplate<F>(template: seq<Symbol<F>>): seq<seq<Symbol<F>>>
  {
    Split(x => SymbolClass<F>(x), Ch('\n'), Ch(' '), template)
  }

  function SplitText(text: string): seq<string>
  {
    Split(CharClass, '\n', ' ', text)
  }

  function RenderToken<F>(t: Token<Symbol<F>>, value: F -> string): Token<char>
  {
    match t case Word(w) => Word(Render(w, value)) case End => End
  }

  function RenderTokens<F>(tokens: seq<Token<Symbol<F>>>, value: F -> string): seq<Token<char>>
  {
    if tokens == [] then [] else [RenderToken(tokens[0], value)] + RenderTokens(tokens[1..], value)
  }

  lemma RenderOfCons<F>(x: Symbol<F>, rest: seq<Symbol<F>>, value: F -> string)
    ensures Render([x] + rest, value) == Put(x, value) + Render(rest, value)
  {
    assert ([x] + rest)[1..] == rest;
  }

  lemma {:induction false} RenderConcat<F>(a: seq<Symbol<F>>, b: seq<Symbol<F>>, value: F -> string)
    ensures Render(a + b, value) == Render(a, value) + Render(b, value)
    decreases |a|
  {
    if a == [] {
      assert a + b == b;
    } else {
      hide Render, Put;
      RenderConcat(a[1..], b, value);
      HeadAndTail(a, b);
      RenderOfCons(a[0], a[1..] + b, value);
      RenderOfCons(a[0], a[1..], value);
      Associates(Put(a[0], value), Render(a[1..], value), Render(b, value));
    }
  }

  lemma RenderAllOfCons<F>(x: seq<Symbol<F>>, rest: seq<seq<Symbol<F>>>, value: F -> string)
    ensures RenderAll([x] + rest, value) == [Render(x, value)] + RenderAll(rest, value)
  {
    assert ([x] + rest)[1..] == rest;
  }

  lemma {:induction false} RenderAllConcat<F>(a: seq<seq<Symbol<F>>>, b: seq<seq<Symbol<F>>>, value: F -> string)
    ensures RenderAll(a + b, value) == RenderAll(a, value) + RenderAll(b, value)
    ensures |RenderAll(a, value)| == |a|
    decreases |a|
  {
    if a == [] {
      assert a + b == b;
    } else {
      hide RenderAll;
      RenderAllConcat(a[1..], b, value);
      HeadAndTail(a, b);
      RenderAllOfCons(a[0], a[1..] + b, value);
      RenderAllOfCons(a[0], a[1..], value);
      Associates([Render(a[0], value)], RenderAll(a[1..], value), RenderAll(b, value));
    }
  }

  lemma RenderTokensOfCons<F>(x: Token<Symbol<F>>, rest: seq<Token<Symbol<F>>>, value: F -> string)
    ensures RenderTokens([x] + rest, value) == [RenderToken(x, value)] + RenderTokens(rest, value)
  {
    assert ([x] + rest)[1..] == rest;
  }

  lemma {:induction false} RenderTokensConcat<F>(a: seq<Token<Symbol<F>>>, b: seq<Token<Symbol<F>>>, value: F -> string)
    ensures RenderTokens(a + b, value) == RenderTokens(a, value) + RenderTokens(b, value)
    decreases |a|
  {
    if a == [] {
      assert a + b == b;
    } else {
      hide RenderTokens, RenderToken;
      RenderTokensConcat(a[1..], b, value);
      HeadAndTail(a, b);
      RenderTokensOfCons(a[0], a[1..] + b, value);
      RenderTokensOfCons(a[0], a[1..], value);
      Associates([RenderToken(a[0], value)], RenderTokens(a[1..], value), RenderTokens(b, value));
    }
  }

  /** A visible word renders to a visible word. */
  lemma {:induction false} RenderIsVisible<F>(w: seq<Symbol<F>>, value: F -> string)
    requires Fit(w, value) && forall i | 0 <= i < |w| :: IsVisible(SymbolClass(w[i]))
    ensures forall i | 0 <= i < |Render(w, value)| :: IsVisible(CharClass(Render(w, value)[i]))
    ensures Render(w, value) == [] <==> w == []
  {
    if w != [] {
      RenderIsVisible(w[1..], value);
    }
  }

  lemma {:induction false} TokensRender<F>(kind: Symbol<F> -> Class, s: seq<Symbol<F>>, value: F -> string)
    requires Fit(s, value) && forall x :: kind(x) == SymbolClass(x)
    ensures Tokens(CharClass, Render(s, value)) == RenderTokens(Tokens(kind, s), value)
    decreases |s|
  {
    hide CharClass;
    if s != [] && !IsVisible(kind(s[0])) {
      TokensRender(kind, s[1..], value);
      assert Render(s, value)[1..] == Render(s[1..], value);
    } else if s != [] {
      var w := WordOf(kind, s);
      var after := s[|w|..];
      assert s == w + after && forall i | 0 <= i < |w| :: w[i] == s[i];
      RenderConcat(w, after, value);
      RenderIsVisible(w, value);
      TokensRender(kind, after, value);
      WordOfPrefix(CharClass, Render(w, value), Render(after, value));
    }
  }

  lemma {:induction false} LinesRender<F>(kind: Symbol<F> -> Class, s: seq<Symbol<F>>, value: F -> string)
    requires Fit(s, value) && forall x :: kind(x) == SymbolClass(x)
    ensures SplitOn(CharClass, Newline, Render(s, value)) == RenderAll(SplitOn(kind, Newline, s), value)
    ensures forall i | 0 <= i < |SplitOn(kind, Newline, s)| :: Fit(SplitOn(kind, Newline, s)[i], value)
  {
    hide CharClass;
    if s == [] {
      assert RenderAll([s], value) == [[]];
    } else {
      LinesRender(kind, s[1..], value);
      var rest := SplitOn(kind, Newline, s[1..]);
      var v := Put(s[0], value);
      if kind(s[0]) == Newline {
        assert Render(s, value)[1..] == Render(s[1..], value);
        assert ([[]] + rest)[1..] == rest;
      } else {
        SplitOnPrefix(CharClass, Newline, v, Render(s[1..], value));
        var first := [s[0]] + rest[0];
        assert first[1..] == rest[0];
        assert SplitOn(kind, Newline, s) == [first] + rest[1..];
        assert ([first] + rest[1..])[1..] == rest[1..];
      }
    }
  }

  lemma {:induction false} TrimLeftRenders<F>(kind: Symbol<F> -> Class, s: seq<Symbol<F>>, value: F -> string)
    requires Fit(s, value) && forall x :: kind(x) == SymbolClass(x)
    ensures TrimLeft(CharClass, Render(s, value)) == Render(TrimLeft(kind, s), value)
    ensures Fit(TrimLeft(kind, s), value)
  {
    hide CharClass;
    if s != [] && IsSpace(kind(s[0])) {
      TrimLeftRenders(kind, s[1..], value);
      assert Render(s, value)[1..] == Render(s[1..], value);
    }
  }

  /** A value with no dash in front neither makes a line a comment nor unmakes one. */
  lemma CommentRenders<F>(kind: Symbol<F> -> Class, s: seq<Symbol<F>>, value: F -> string)
    requires Fit(s, value) && forall x :: kind(x) == SymbolClass(x)
    ensures IsComment(CharClass, Render(s, value)) == IsComment(kind, s)
  {
    DashIsDash();
    hide CharClass;
    if |s| == 1 {
      assert Render(s[1..], value) == [];
      assert s[0].Ch? ==> |Render(s, value)| == 1;
      assert s[0].Ref? ==> Render(s, value)[0] == value(s[0].f)[0];
    } else if |s| >= 2 {
      var tail := Render(s[1..], value);
      assert tail[0] == Put(s[1], value)[0];
      assert Render(s, value)[0] == Put(s[0], value)[0];
      if s[0].Ch? {
        assert Render(s, value)[1] == tail[0];
      }
    }
  }

  lemma DashIsDash()
    ensures forall c: char :: CharClass(c).Dash? <==> c == '-'
  {
  }

  lemma {:induction false} CodeRenders<F>(kind: Symbol<F> -> Class, lines: seq<seq<Symbol<F>>>, value: F -> string)
    requires (forall i | 0 <= i < |lines| :: Fit(lines[i], value)) && forall x :: kind(x) == SymbolClass(x)
    ensures Code(CharClass, RenderAll(lines, value)) == RenderTokens(Code(kind, lines), value)
  {
    hide CharClass, IsComment;
    if lines != [] {
      var line := lines[0];
      CodeRenders(kind, lines[1..], value);
      TrimLeftRenders(kind, line, value);
      CommentRenders(kind, TrimLeft(kind, line), value);
      TokensRender(kind, line, value);
      RenderTokensConcat(if IsComment(kind, TrimLeft(kind, line)) then []
          else Tokens(kind, line), Code(kind, lines[1..]), value);
    }
  }

  lemma {:induction false} JoinRenders<F>(words: seq<seq<Symbol<F>>>, value: F -> string)
    ensures Render(Join(words, Ch(' ')), value) == Join(RenderAll(words, value), ' ')
  {
    if |words| == 1 {
      assert RenderAll(words[1..], value) == [];
    } else if words != [] {
      JoinRenders(words[1..], value);
      var rest := Join(words[1..], Ch(' '));
      RenderConcat(words[0], [Ch(' ')] + rest, value);
      assert words[0] + [Ch(' ')] + rest == words[0] + ([Ch(' ')] + rest);
      assert ([Ch(' ')] + rest)[1..] == rest;
      RenderAllConcat(words[1..], [], value);
      assert RenderAll(words, value)[1..] == RenderAll(words[1..], value);
    }
  }

  lemma EmitRenders<F>(words: seq<seq<Symbol<F>>>, value: F -> string)
    ensures RenderAll(Emit(words, Ch(' ')), value) == Emit(RenderAll(words, value), ' ')
  {
    JoinRenders(words, value);
    if words != [] {
      assert Emit(words, Ch(' '))[1..] == [];
    }
  }

  lemma {:induction false} AssembleRenders<F>(pending: seq<seq<Symbol<F>>>, tokens: seq<Token<Symbol<F>>>,
          value: F -> string)
    ensures RenderAll(Assemble(pending, tokens, Ch(' ')), value) ==
      Assemble(RenderAll(pending, value), RenderTokens(tokens, value), ' ')
    decreases tokens
  {
    hide Emit;
    EmitRenders(pending, value);
    if tokens != [] {
      var rest := RenderTokens(tokens[1..], value);
      assert RenderTokens(tokens, value)[1..] == rest;
      match tokens[0]
      case Word(w) =>
        AssembleRenders(pending + [w], tokens[1..], value);
        RenderAllConcat(pending, [w], value);
        assert RenderAll([w], value) == [Render(w, value)] by { assert [w][1..] == []; }
      case End =>
        AssembleRenders([], tokens[1..], value);
        RenderAllConcat(Emit(pending, Ch(' ')), Assemble([], tokens[1..], Ch(' ')), value);
    }
  }

  /** For all templates and all values that can be spliced into them, splitting the rendered text is rendering
      the split template: no value can add, merge, cut short or comment out a statement. */
  lemma RenderThenSplit<F>(template: seq<Symbol<F>>, value: F -> string)
    requires Fit(template, value)
    ensures SplitText(Render(template, value)) == RenderAll(SplitTemplate(template), value)
  {
    hide CharClass;
    var kind := x => SymbolClass<F>(x);
    NewlineIsNewline<F>();
    SplitIsAssembly(kind, Ch('\n'), Ch(' '), template);
    SplitIsAssembly(CharClass, '\n', ' ', Render(template, value));
    LinesRender(kind, template, value);
    CodeRenders(kind, SplitOn(kind, Newline, template), value);
    AssembleRenders([], Code(kind, SplitOn(kind, Newline, template)), value);
  }

  lemma NewlineIsNewline<F>()
    ensures CharClass('\n') == Newline && CharClass(' ') == Blank && CharClass(';') == Semicolon
    ensures SymbolClass<F>(Ch('\n')) == Newline && SymbolClass<F>(Ch(' ')) == Blank
    ensures SymbolClass<F>(Ch(';')) == Semicolon
  {
  }

  lemma RenderAllOfOne<F>(part: seq<Symbol<F>>, value: F -> string)
    ensures RenderAll([part], value) == [Render(part, value)]
  {
    assert [part][1..] == [];
  }

  /** The condition cannot be dropped: a value with a semicolon, a line break or other stray white space in it never
      comes out of a rendered template whole. */
  lemma StrayValuesBreakTemplates(v: string)
    requires !Normal(CharClass, ' ', v)
    ensures var template: seq<Symbol<()>> := [Ref(())];
      SplitText(Render(template, (_: ()) => v)) != RenderAll([template], (_: ()) => v)
  {
    hide CharClass, Split, Normal;
    NewlineIsNewline<()>();
    var value := (_: ()) => v;
    var template: seq<Symbol<()>> := [Ref(())];
    assert template[1..] == [] && Render(template, value) == v + [] == v;
    RenderAllOfOne(template, value);
    SplitIsNormal(CharClass, '\n', ' ', v);
    assert |SplitText(v)| == 1 ==> Normal(CharClass, ' ', SplitText(v)[0]);
  }
}
